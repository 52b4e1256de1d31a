/** `useAppToAppLink`: the deep link the launcher opens, read from local
    storage on mount and written back on every change; storage failures fall
    back to the default or are swallowed. */
module AppToAppLink {
  import opened Wrappers
  import opened LocalStorage

  const StorageKey := "app-to-app-deep-link"

  const DefaultDeepLink := "intent://launch#Intent;scheme=cactusgame;package=com.cactusgame.vr;end"

  /** `localStorage.getItem(STORAGE_KEY) || DEFAULT_DEEP_LINK`, with a throwing
      read also giving the default. */
  function InitialLink(store: Store): (link: string)
    reads store
    ensures link != ""
    ensures store.readable && StorageKey in store.entries && store.entries[StorageKey] != "" ==>
      link == store.entries[StorageKey]
    ensures !store.readable || StorageKey !in store.entries || store.entries[StorageKey] == "" ==>
      link == DefaultDeepLink
  {
    match store.GetItem(StorageKey)
    case Err(_) => DefaultDeepLink
    case Ok(None) => DefaultDeepLink
    case Ok(Some(stored)) => if stored == "" then DefaultDeepLink else stored
  }

  /** The `deepLink` cell and the storage it is mirrored to. */
  class AppToAppLink {
    var deepLink: string
    const storage: Store

    /** Whenever storage accepts writes, it holds the current link. */
    ghost predicate Valid()
      reads this, storage
    {
      storage.writable ==> StorageKey in storage.entries && storage.entries[StorageKey] == deepLink
    }

    /** Mount: the initial link, then the effect's first write. */
    constructor(storage: Store)
      modifies storage
      ensures Valid()
      ensures this.storage == storage
      ensures deepLink == old(InitialLink(storage))
      ensures storage.writable ==> storage.entries == old(storage.entries)[StorageKey := deepLink]
      ensures !storage.writable ==> storage.entries == old(storage.entries)
    {
      deepLink := InitialLink(storage);
      this.storage := storage;
      new;
      var written := storage.SetItem(StorageKey, deepLink);
    }

    /** The state change plus the effect it triggers: the effect runs only
        when the value differs, and a failing write is swallowed. */
    method Change(value: string)
      requires Valid()
      modifies this, storage
      ensures Valid()
      ensures deepLink == value
      ensures storage.writable && value != old(deepLink) ==> storage.entries == old(storage.entries)[StorageKey := value]
      ensures !storage.writable || value == old(deepLink) ==> storage.entries == old(storage.entries)
    {
      if value != deepLink {
        deepLink := value;
        var written := storage.SetItem(StorageKey, value);
      }
    }

    /** `setDeepLink`: the value is taken verbatim, without trimming or checks. */
    method SetDeepLink(value: string)
      requires Valid()
      modifies this, storage
      ensures Valid()
      ensures deepLink == value
      ensures storage.writable ==> storage.entries == old(storage.entries)[StorageKey := value]
      ensures !storage.writable ==> storage.entries == old(storage.entries)
    {
      Change(value);
    }

    /** `resetToDefault`. */
    method ResetToDefault()
      requires Valid()
      modifies this, storage
      ensures Valid()
      ensures deepLink == DefaultDeepLink
      ensures storage.writable ==> storage.entries == old(storage.entries)[StorageKey := DefaultDeepLink]
      ensures !storage.writable ==> storage.entries == old(storage.entries)
    {
      Change(DefaultDeepLink);
    }
  }

  /** A stored non-empty link is what the next mount starts from. */
  lemma NonEmptyLinkSurvivesReload(store: Store, link: string)
    requires store.readable && StorageKey in store.entries && store.entries[StorageKey] == link
    requires link != ""
    ensures InitialLink(store) == link
  {
  }

  /** A link cleared to `''` is stored as `''` but comes back as the default. */
  lemma EmptyLinkReloadsAsDefault(store: Store)
    requires store.readable && StorageKey in store.entries && store.entries[StorageKey] == ""
    ensures InitialLink(store) == DefaultDeepLink
  {
  }
}
