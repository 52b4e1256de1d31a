/** The query and mutation hooks over the remote actor: every call fails with
    "Actor not available" when there is no actor, queries run only once the
    actor is ready, and each successful mutation marks a fixed set of cached
    queries stale. */
module Queries {
  import opened Wrappers
  import opened Backend

  datatype QueryKey = CurrentUserProfileKey | ItemSpawnerKey | ProcessSelectorKey | AvailableProcessesKey

  datatype QueryError = ActorNotAvailable | CallFailed

  /** A remote call a mutation issues, with its payload. */
  datatype Request =
    | SaveProfileCall(profile: UserProfile)
    | AddItemCall(item: Item)
    | SetSelectorCall(selector: ProcessSelector)

  /** The keys each mutation's `onSuccess` invalidates: the profile always,
      plus the sub-entity the mutation wrote. */
  function Invalidates(req: Request): (keys: set<QueryKey>)
    ensures CurrentUserProfileKey in keys
    ensures AvailableProcessesKey !in keys
    ensures ItemSpawnerKey in keys <==> req.AddItemCall?
    ensures ProcessSelectorKey in keys <==> req.SetSelectorCall?
  {
    match req
    case SaveProfileCall(_) => {CurrentUserProfileKey}
    case AddItemCall(_) => {ItemSpawnerKey, CurrentUserProfileKey}
    case SetSelectorCall(_) => {ProcessSelectorKey, CurrentUserProfileKey}
  }

  /** `enabled: !!actor && !actorFetching`, shared by every query. */
  function QueryEnabled(hasActor: bool, actorFetching: bool): (r: bool)
    ensures r ==> hasActor
    ensures actorFetching ==> !r
    ensures hasActor && !actorFetching ==> r
  {
    hasActor && !actorFetching
  }

  datatype ProfileQueryStatus = ProfileQueryStatus(isLoading: bool, isFetched: bool)

  /** The flags `useGetCallerUserProfile` reports on top of the query's own:
      loading while the actor is fetching, never fetched without an actor. */
  function ProfileStatus(hasActor: bool, actorFetching: bool, queryLoading: bool, queryFetched: bool): (r: ProfileQueryStatus)
    ensures !hasActor ==> !r.isFetched
    ensures actorFetching || queryLoading ==> r.isLoading
    ensures r.isFetched ==> queryFetched
    ensures hasActor && queryFetched ==> r.isFetched
    ensures !actorFetching && !queryLoading ==> !r.isLoading
  {
    ProfileQueryStatus(actorFetching || queryLoading, hasActor && queryFetched)
  }

  /** A query function: fails without an actor, otherwise passes on the
      remote answer (or the remote failure). */
  function RunQuery<T>(hasActor: bool, response: Result<T, QueryError>): (r: Result<T, QueryError>)
    ensures !hasActor ==> r == Err(ActorNotAvailable)
    ensures hasActor ==> r == response
  {
    if !hasActor then Err(ActorNotAvailable) else response
  }

  /** `getItemSpawner`'s query: a `null` spawner reads as `{ items: [] }`. */
  function FetchItemSpawner(hasActor: bool, response: Result<Option<ItemSpawner>, QueryError>): (r: Result<ItemSpawner, QueryError>)
    ensures !hasActor ==> r == Err(ActorNotAvailable)
    ensures hasActor && response == Ok(None) ==> r == Ok(ItemSpawner([]))
    ensures hasActor && response.Ok? && response.value.Some? ==> r == Ok(response.value.value)
    ensures hasActor && response.Err? ==> r == Err(response.error)
  {
    var fetched: Result<Option<ItemSpawner>, QueryError> := RunQuery(hasActor, response);
    if fetched.Err? then Err(fetched.error)
    else Ok(fetched.value.GetOr(ItemSpawner([])))
  }

  /** `Math.floor(Math.random() * 1000)` for a draw in [0, 1). */
  function TypeId(draw: real): (t: int)
    requires 0.0 <= draw < 1.0
    ensures 0 <= t <= 999
  {
    (draw * 1000.0).Floor
  }

  /** The shared query cache together with the calls sent to the actor. */
  class Client {
    const hasActor: bool
    var cached: set<QueryKey>
    var stale: set<QueryKey>
    var sent: seq<Request>

    ghost predicate Valid()
      reads this
    {
      stale <= cached
    }

    constructor(hasActor: bool, cached: set<QueryKey>)
      ensures Valid()
      ensures this.hasActor == hasActor && this.cached == cached && stale == {} && sent == []
    {
      this.hasActor := hasActor;
      this.cached := cached;
      stale := {};
      sent := [];
    }

    /** `invalidateQueries`: cached queries under the keys become stale. */
    method InvalidateQueries(keys: set<QueryKey>)
      requires Valid()
      modifies this
      ensures Valid()
      ensures stale == old(stale) + keys * cached
      ensures cached == old(cached) && sent == old(sent)
    {
      stale := stale + keys * cached;
    }

    /** `queryClient.clear()`: the whole cache is dropped. */
    method Clear()
      requires Valid()
      modifies this
      ensures Valid()
      ensures cached == {} && stale == {} && sent == old(sent)
    {
      cached := {};
      stale := {};
    }

    /** One mutation: throw without an actor, otherwise send the request;
        `remoteOk` says whether the remote call resolves. Invalidation happens
        in `onSuccess` only. */
    method Mutate(req: Request, remoteOk: bool) returns (r: Outcome<QueryError>)
      requires Valid()
      modifies this
      ensures Valid()
      ensures cached == old(cached)
      ensures !hasActor ==> r == Fail(ActorNotAvailable) && sent == old(sent) && stale == old(stale)
      ensures hasActor ==> sent == old(sent) + [req]
      ensures hasActor && remoteOk ==> r == Pass && stale == old(stale) + Invalidates(req) * cached
      ensures hasActor && !remoteOk ==> r == Fail(CallFailed) && stale == old(stale)
    {
      if !hasActor {
        return Fail(ActorNotAvailable);
      }
      sent := sent + [req];
      if remoteOk {
        InvalidateQueries(Invalidates(req));
        r := Pass;
      } else {
        r := Fail(CallFailed);
      }
    }

    /** `useSaveCallerUserProfile`. */
    method SaveCallerUserProfile(profile: UserProfile, remoteOk: bool) returns (r: Outcome<QueryError>)
      requires Valid()
      modifies this
      ensures Valid()
      ensures cached == old(cached)
      ensures !hasActor ==> r == Fail(ActorNotAvailable) && sent == old(sent) && stale == old(stale)
      ensures hasActor ==> sent == old(sent) + [SaveProfileCall(profile)]
      ensures hasActor && remoteOk ==> r == Pass && stale == old(stale) + {CurrentUserProfileKey} * cached
      ensures hasActor && !remoteOk ==> r == Fail(CallFailed) && stale == old(stale)
    {
      r := Mutate(SaveProfileCall(profile), remoteOk);
    }

    /** `useAddItem`: the item gets a random type id in [0, 999]. */
    method AddItem(itemName: string, draw: real, remoteOk: bool) returns (r: Outcome<QueryError>)
      requires Valid()
      requires 0.0 <= draw < 1.0
      modifies this
      ensures Valid()
      ensures cached == old(cached)
      ensures !hasActor ==> r == Fail(ActorNotAvailable) && sent == old(sent) && stale == old(stale)
      ensures hasActor ==> sent == old(sent) + [AddItemCall(Item(itemName, TypeId(draw)))]
      ensures hasActor ==> 0 <= sent[|sent| - 1].item.typeId <= 999
      ensures hasActor && remoteOk ==> r == Pass && stale == old(stale) + {ItemSpawnerKey, CurrentUserProfileKey} * cached
      ensures hasActor && !remoteOk ==> r == Fail(CallFailed) && stale == old(stale)
    {
      r := Mutate(AddItemCall(Item(itemName, TypeId(draw))), remoteOk);
    }

    /** `useSetProcessSelector`. */
    method SetProcessSelector(selector: ProcessSelector, remoteOk: bool) returns (r: Outcome<QueryError>)
      requires Valid()
      modifies this
      ensures Valid()
      ensures cached == old(cached)
      ensures !hasActor ==> r == Fail(ActorNotAvailable) && sent == old(sent) && stale == old(stale)
      ensures hasActor ==> sent == old(sent) + [SetSelectorCall(selector)]
      ensures hasActor && remoteOk ==> r == Pass && stale == old(stale) + {ProcessSelectorKey, CurrentUserProfileKey} * cached
      ensures hasActor && !remoteOk ==> r == Fail(CallFailed) && stale == old(stale)
    {
      r := Mutate(SetSelectorCall(selector), remoteOk);
    }
  }
}
