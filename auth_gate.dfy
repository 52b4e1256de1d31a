/** The gate in front of the menu: the login screen without an identity, a
    loading screen until the profile query has fetched, the profile setup
    dialog when the caller has no profile, and the menu otherwise. */
module AuthGate {
  import opened Wrappers
  import opened Backend
  import Queries

  /** The profile query's `data`: `undefined` (not fetched, or the fetch
      failed), `null` (no profile yet), or a profile. */
  datatype ProfileData = NotLoaded | NoProfile | Loaded(profile: UserProfile)

  datatype Screen = LoginScreen | LoadingScreen | ProfileSetupScreen | AppScreen

  /** `isAuthenticated && !profileLoading && isFetched && userProfile === null`. */
  function ShowProfileSetup(authenticated: bool, profileLoading: bool, isFetched: bool, data: ProfileData): (shown: bool)
    ensures shown ==> authenticated && isFetched && !profileLoading
    ensures !data.NoProfile? ==> !shown
  {
    authenticated && !profileLoading && isFetched && data == NoProfile
  }

  /** The screen the gate renders; the conditions are tried in order, so
      exactly one applies. */
  function ChooseScreen(authenticated: bool, profileLoading: bool, isFetched: bool, data: ProfileData): (s: Screen)
    ensures s == LoginScreen <==> !authenticated
    ensures s == LoadingScreen <==> authenticated && (profileLoading || !isFetched)
    ensures s == ProfileSetupScreen <==> ShowProfileSetup(authenticated, profileLoading, isFetched, data)
    ensures s == AppScreen <==> authenticated && !profileLoading && isFetched && data != NoProfile
  {
    if !authenticated then LoginScreen
    else if profileLoading || !isFetched then LoadingScreen
    else if ShowProfileSetup(authenticated, profileLoading, isFetched, data) then ProfileSetupScreen
    else AppScreen
  }

  /** A failed profile fetch leaves `data` undefined, not `null`: the gate then
      shows the menu, not the setup dialog. */
  lemma FetchErrorShowsApp(profileLoading: bool)
    requires !profileLoading
    ensures ChooseScreen(true, profileLoading, true, NotLoaded) == AppScreen
  {
  }

  /** Signed in but without an actor, the profile query never counts as
      fetched, so the gate stays on the loading screen. */
  lemma NoActorStaysLoading(actorFetching: bool, queryLoading: bool, queryFetched: bool, data: ProfileData)
    ensures var st := Queries.ProfileStatus(false, actorFetching, queryLoading, queryFetched);
      ChooseScreen(true, st.isLoading, st.isFetched, data) == LoadingScreen
  {
  }

  /** The signed-in identity, as `useInternetIdentity` holds it. */
  class Session {
    var identity: Option<string>

    constructor(identity: Option<string>)
      ensures this.identity == identity
    {
      this.identity := identity;
    }
  }

  /** `handleLogout`: clear the identity, then the whole query cache. When
      clearing the identity fails (`clearOk` false) the call stops there. */
  method HandleLogout(session: Session, client: Queries.Client, clearOk: bool)
    requires client.Valid()
    modifies session, client
    ensures client.Valid()
    ensures client.sent == old(client.sent)
    ensures clearOk ==> session.identity == None && client.cached == {} && client.stale == {}
    ensures !clearOk ==>
      session.identity == old(session.identity) && client.cached == old(client.cached) && client.stale == old(client.stale)
  {
    if !clearOk {
      return;
    }
    session.identity := None;
    client.Clear();
  }

  /** After logout the gate shows the login screen, whatever the profile. */
  lemma LoggedOutShowsLogin(profileLoading: bool, isFetched: bool, data: ProfileData)
    ensures ChooseScreen(false, profileLoading, isFetched, data) == LoginScreen
  {
  }
}
