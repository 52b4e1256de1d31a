/** `useModSettings`: the settings record the menu shows, split between the
    backend (four gameplay flags, stored in the profile under other names) and
    local storage (two multipliers and the background switch). */
module ModSettingsHook {
  import opened Wrappers
  import opened Backend
  import opened LocalStorage
  import opened ModSettings
  import Queries

  /** Where each field is persisted. */
  datatype Owner = Remote | Local

  function OwnerOf(f: Field): (o: Owner)
    ensures o == Local <==> IsMultiplier(f) || f == RainbowBackground
  {
    match f
    case Fly => Remote
    case SuperSpeed => Remote
    case SuperJump => Remote
    case DisableMonsters => Remote
    case SpeedMultiplier => Local
    case JumpMultiplier => Local
    case RainbowBackground => Local
  }

  /** `backendToFrontend`: the four backend flags under their menu names, and
      nothing else. */
  function BackendToFrontend(b: BackendModSettings): (p: PartialSettings)
    ensures forall f :: Lookup(p, f).Some? <==> OwnerOf(f) == Remote
    ensures p.fly == Some(b.noclipEnabled) && p.superSpeed == Some(b.infiniteManaEnabled)
    ensures p.superJump == Some(b.moonJumpEnabled) && p.disableMonsters == Some(b.infiniteHealthEnabled)
  {
    PartialSettings(
      fly := Some(b.noclipEnabled),
      superSpeed := Some(b.infiniteManaEnabled),
      speedMultiplier := None,
      superJump := Some(b.moonJumpEnabled),
      jumpMultiplier := None,
      disableMonsters := Some(b.infiniteHealthEnabled),
      rainbowBackground := None)
  }

  /** `frontendToBackend`: the four backend-owned flags under the backend's names. */
  function FrontendToBackend(s: Settings): (b: BackendModSettings)
    ensures forall f :: OwnerOf(f) == Remote ==> Lookup(BackendToFrontend(b), f) == Some(Get(s, f))
  {
    BackendModSettings(
      noclipEnabled := s.fly,
      infiniteManaEnabled := s.superSpeed,
      moonJumpEnabled := s.superJump,
      infiniteHealthEnabled := s.disableMonsters)
  }

  /** The three fields written to local storage, and nothing else. */
  function LocalPart(s: Settings): (p: PartialSettings)
    ensures forall f :: Lookup(p, f).Some? <==> OwnerOf(f) == Local
    ensures forall f :: Lookup(p, f).Some? ==> Lookup(p, f).value == Get(s, f)
  {
    PartialSettings(None, None, Some(s.speedMultiplier), None, Some(s.jumpMultiplier), None, Some(s.rainbowBackground))
  }

  /** Every field has exactly one home: the backend record or the local one. */
  lemma OwnershipSplit(b: BackendModSettings, s: Settings, f: Field)
    ensures Lookup(BackendToFrontend(b), f).Some? != Lookup(LocalPart(s), f).Some?
  {
  }

  /** Backend to menu and back is the identity, whatever record the flags are
      overlaid on. */
  lemma BackendRoundTrip(b: BackendModSettings, s: Settings)
    ensures FrontendToBackend(Overlay(s, BackendToFrontend(b))) == b
  {
  }

  /** Menu to backend and back restores the four flags, and the overlay leaves
      the other fields alone, so the record is unchanged. */
  lemma {:induction false} FrontendRoundTrip(s: Settings)
    ensures Overlay(s, BackendToFrontend(FrontendToBackend(s))) == s
  {
    var r := Overlay(s, BackendToFrontend(FrontendToBackend(s)));
    forall f ensures Get(r, f) == Get(s, f) {
      assert Lookup(BackendToFrontend(FrontendToBackend(s)), f).Some? ==>
        Lookup(BackendToFrontend(FrontendToBackend(s)), f).value == Get(s, f);
    }
    SettingsExtensional(r, s);
  }

  /** The backend record depends on the backend-owned fields only. */
  lemma FrontendToBackendIgnoresLocal(s: Settings, t: Settings)
    requires forall f :: OwnerOf(f) == Remote ==> Get(s, f) == Get(t, f)
    ensures FrontendToBackend(s) == FrontendToBackend(t)
  {
    assert Get(s, Fly) == Get(t, Fly);
    assert Get(s, SuperSpeed) == Get(t, SuperSpeed);
    assert Get(s, SuperJump) == Get(t, SuperJump);
    assert Get(s, DisableMonsters) == Get(t, DisableMonsters);
  }

  /** `value || 1` on a stored number: a missing key or `0` falls back. */
  function NumberOr(o: Option<real>, fallback: real): (r: real)
    ensures o.Some? && o.value != 0.0 ==> r == o.value
    ensures o.None? || o.value == 0.0 ==> r == fallback
  {
    if o.Some? && o.value != 0.0 then o.value else fallback
  }

  /** `value || false` on a stored flag. */
  function FlagOr(o: Option<bool>): (r: bool)
    ensures r <==> o == Some(true)
  {
    o.Some? && o.value
  }

  /** The record the load effect builds: defaults, then the backend flags,
      then the three local fields with their falsy fallbacks. */
  function LoadedSettings(b: BackendModSettings, local: PartialSettings): (r: Settings)
    ensures FrontendToBackend(r) == b
    ensures r.speedMultiplier != 0.0 && r.jumpMultiplier != 0.0
    ensures local.speedMultiplier.Some? && local.speedMultiplier.value != 0.0 ==> r.speedMultiplier == local.speedMultiplier.value
    ensures local.speedMultiplier.None? || local.speedMultiplier.value == 0.0 ==> r.speedMultiplier == Default.speedMultiplier
    ensures local.jumpMultiplier.Some? && local.jumpMultiplier.value != 0.0 ==> r.jumpMultiplier == local.jumpMultiplier.value
    ensures local.jumpMultiplier.None? || local.jumpMultiplier.value == 0.0 ==> r.jumpMultiplier == Default.jumpMultiplier
    ensures r.rainbowBackground <==> local.rainbowBackground == Some(true)
  {
    var merged := Overlay(Default, BackendToFrontend(b));
    merged.(
      speedMultiplier := NumberOr(local.speedMultiplier, 1.0),
      jumpMultiplier := NumberOr(local.jumpMultiplier, 1.0),
      rainbowBackground := FlagOr(local.rainbowBackground))
  }

  /** What is saved is what is loaded: a record whose multipliers are non-zero
      comes back unchanged from its backend flags and its local part. */
  lemma {:induction false} PersistReloadRoundTrip(s: Settings)
    requires s.speedMultiplier != 0.0 && s.jumpMultiplier != 0.0
    ensures LoadedSettings(FrontendToBackend(s), LocalPart(s)) == s
  {
    var r := LoadedSettings(FrontendToBackend(s), LocalPart(s));
    assert FrontendToBackend(r) == FrontendToBackend(s);
    assert r.speedMultiplier == s.speedMultiplier;
    assert r.jumpMultiplier == s.jumpMultiplier;
    assert r.rainbowBackground == s.rainbowBackground;
  }

  /** A stored zero multiplier does not survive a reload: it comes back as 1. */
  lemma ZeroMultiplierReloadsAsOne(s: Settings)
    requires s.speedMultiplier == 0.0
    ensures LoadedSettings(FrontendToBackend(s), LocalPart(s)).speedMultiplier == 1.0
  {
  }

  datatype LoadError = StorageUnreadable | MalformedJson

  /** The effect's own read of `modSettings`: a missing or empty value is `{}`,
      but a throwing `getItem` or `JSON.parse` is not caught. */
  function ReadLocal(store: Store, codec: JsonCodec): (r: Result<PartialSettings, LoadError>)
    reads store
    ensures !store.readable <==> r == Err(StorageUnreadable)
    ensures r == Err(MalformedJson) <==>
      store.readable && SettingsKey in store.entries && store.entries[SettingsKey] != ""
      && codec.parse(store.entries[SettingsKey]).None?
    ensures r.Ok? ==> r.value == GetStoredSettings(store, codec)
  {
    match store.GetItem(SettingsKey)
    case Err(_) => Err(StorageUnreadable)
    case Ok(None) => Ok(NoSettings)
    case Ok(Some(text)) =>
      if text == "" then Ok(NoSettings)
      else match codec.parse(text)
        case None => Err(MalformedJson)
        case Some(p) => Ok(p)
  }

  /** Where the effect's read fails, the fail-soft helper would have given `{}`:
      the two reads differ exactly on the error path. */
  lemma ReadLocalFailsWhereStoredIsEmpty(store: Store, codec: JsonCodec)
    requires ReadLocal(store, codec).Err?
    ensures GetStoredSettings(store, codec) == NoSettings
  {
  }

  /** After the three local fields of `s` were written, the effect reads them back. */
  lemma LocalWriteReadsBack(store: Store, codec: JsonCodec, s: Settings)
    requires Faithful(codec)
    requires store.readable && SettingsKey in store.entries
    requires store.entries[SettingsKey] == codec.stringify(LocalPart(s))
    ensures ReadLocal(store, codec) == Ok(LocalPart(s))
  {
    assert codec.parse(codec.stringify(LocalPart(s))) == Some(LocalPart(s));
  }

  /** The profile `updateSettings` saves: the loaded one with only its
      `modSettings` replaced. */
  function SavedProfile(p: UserProfile, s: Settings): (q: UserProfile)
    ensures q.name == p.name && q.itemSpawner == p.itemSpawner && q.processSelector == p.processSelector
    ensures Overlay(s, BackendToFrontend(q.modSettings)) == s
  {
    FrontendRoundTrip(s);
    p.(modSettings := FrontendToBackend(s))
  }

  /** Repeating an update writes the same local record and saves the same
      profile as applying it once. */
  lemma RepeatedUpdateSamePayloads(s: Settings, u: PartialSettings, p: UserProfile)
    ensures Overlay(Overlay(s, u), u) == Overlay(s, u)
    ensures LocalPart(Overlay(Overlay(s, u), u)) == LocalPart(Overlay(s, u))
    ensures SavedProfile(p, Overlay(Overlay(s, u), u)) == SavedProfile(p, Overlay(s, u))
  {
    OverlayIdempotent(s, u);
  }

  /** The hook's state: the `settings` cell, the profile the query last gave,
      and the storage and query client it talks to. */
  class ModSettingsHook {
    var settings: Settings
    var userProfile: Option<UserProfile>
    const storage: Store
    const client: Queries.Client
    const codec: JsonCodec

    constructor(storage: Store, client: Queries.Client, codec: JsonCodec)
      ensures settings == Default && userProfile == None
      ensures this.storage == storage && this.client == client && this.codec == codec
    {
      settings := Default;
      userProfile := None;
      this.storage := storage;
      this.client := client;
      this.codec := codec;
    }

    /** The load effect, run when the profile query yields `p`: with no
        profile nothing is loaded; a failing read leaves the record as it was. */
    method ProfileChanged(p: Option<UserProfile>) returns (r: Outcome<LoadError>)
      modifies this
      ensures userProfile == p
      ensures p.None? ==> r == Pass && settings == old(settings)
      ensures p.Some? && ReadLocal(storage, codec).Err? ==> r == Fail(ReadLocal(storage, codec).error) && settings == old(settings)
      ensures p.Some? && ReadLocal(storage, codec).Ok? ==>
        r == Pass && settings == LoadedSettings(p.value.modSettings, ReadLocal(storage, codec).value)
    {
      userProfile := p;
      if p.None? {
        return Pass;
      }
      var local := ReadLocal(storage, codec);
      if local.Err? {
        return Fail(local.error);
      }
      settings := LoadedSettings(p.value.modSettings, local.value);
      r := Pass;
    }

    /** `updateSettings`: overlay the updates, write the local part, then save
        the profile when there is one. A throwing write ends the call before
        the save; a failed save is swallowed and nothing is rolled back. */
    method UpdateSettings(updates: PartialSettings, remoteOk: bool) returns (r: Outcome<StorageError>)
      requires client.Valid()
      modifies this, storage, client
      ensures client.Valid()
      ensures settings == Overlay(old(settings), updates) && userProfile == old(userProfile)
      ensures storage.writable <==> r == Pass
      ensures storage.writable ==> storage.entries == old(storage.entries)[SettingsKey := codec.stringify(LocalPart(settings))]
      ensures !storage.writable ==> storage.entries == old(storage.entries)
      ensures client.cached == old(client.cached)
      ensures !storage.writable || userProfile.None? || !client.hasActor ==>
        client.sent == old(client.sent) && client.stale == old(client.stale)
      ensures storage.writable && userProfile.Some? && client.hasActor ==>
        client.sent == old(client.sent) + [Queries.SaveProfileCall(SavedProfile(userProfile.value, settings))]
      ensures storage.writable && userProfile.Some? && client.hasActor && remoteOk ==>
        client.stale == old(client.stale) + {Queries.CurrentUserProfileKey} * client.cached
      ensures !remoteOk ==> client.stale == old(client.stale)
    {
      settings := Overlay(settings, updates);
      var written := storage.SetItem(SettingsKey, codec.stringify(LocalPart(settings)));
      if written.Fail? {
        return Fail(written.error);
      }
      if userProfile.Some? {
        var saved := client.SaveCallerUserProfile(SavedProfile(userProfile.value, settings), remoteOk);
      }
      r := Pass;
    }
  }
}
