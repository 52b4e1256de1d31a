/** The embedded browser's navigation history: a current URL between a back
    stack (most recent last) and a forward stack (next page first). Every
    transition builds a fresh state from the previous one. */
module BrowserHistory {

  datatype HistoryState = HistoryState(currentUrl: string, backStack: seq<string>, forwardStack: seq<string>)

  /** The state the hook starts in: no page, both stacks empty. */
  const Initial := HistoryState("", [], [])

  /** All pages of the session in visiting order, the current one included. */
  function Timeline(s: HistoryState): seq<string> {
    s.backStack + [s.currentUrl] + s.forwardStack
  }

  /** Where the current page sits on the timeline. */
  function Position(s: HistoryState): nat {
    |s.backStack|
  }

  /** The state whose timeline is `t` with the cursor at `p`. */
  function At(t: seq<string>, p: nat): (s: HistoryState)
    requires p < |t|
    ensures Timeline(s) == t && Position(s) == p
  {
    assert t[..p] + [t[p]] + t[p + 1..] == t;
    HistoryState(t[p], t[..p], t[p + 1..])
  }

  /** A state is fixed by its timeline and its position. */
  lemma AtTimeline(s: HistoryState)
    ensures At(Timeline(s), Position(s)) == s
  {
    var t := Timeline(s);
    var p := Position(s);
    assert t[..p] == s.backStack;
    assert t[p + 1..] == s.forwardStack;
  }

  /** The part of the timeline `go` keeps: the back stack, and the current
      page unless there is none. */
  function Past(s: HistoryState): seq<string> {
    if s.currentUrl != "" then s.backStack + [s.currentUrl] else s.backStack
  }

  /** `go(url)`: the forward pages are dropped, `url` becomes current, and the
      old current page joins the back stack whenever it is non-empty, even when
      it equals `url`. */
  function Go(s: HistoryState, url: string): (r: HistoryState)
    ensures r == At(Past(s) + [url], |Past(s)|)
    ensures r.currentUrl == url && r.forwardStack == []
    ensures |r.backStack| == |s.backStack| + (if s.currentUrl == "" then 0 else 1)
    ensures r.backStack[..|s.backStack|] == s.backStack
  {
    var newBackStack := if s.currentUrl != "" then s.backStack + [s.currentUrl] else s.backStack;
    HistoryState(url, newBackStack, [])
  }

  /** `back()`: a no-op on an empty back stack; otherwise the cursor moves one
      page to the left on an unchanged timeline. */
  function Back(s: HistoryState): (r: HistoryState)
    ensures s.backStack == [] ==> r == s
    ensures s.backStack != [] ==> Position(s) > 0 && r == At(Timeline(s), Position(s) - 1)
  {
    if |s.backStack| == 0 then s
    else
      var n := |s.backStack| - 1;
      var r := HistoryState(s.backStack[n], s.backStack[..n], [s.currentUrl] + s.forwardStack);
      assert Timeline(r) == Timeline(s) by {
        assert s.backStack[..n] + [s.backStack[n]] == s.backStack;
      }
      AtTimeline(r);
      r
  }

  /** `forward()`: a no-op on an empty forward stack; otherwise the cursor
      moves one page to the right on an unchanged timeline. */
  function Forward(s: HistoryState): (r: HistoryState)
    ensures s.forwardStack == [] ==> r == s
    ensures s.forwardStack != [] ==> Position(s) + 1 < |Timeline(s)| && r == At(Timeline(s), Position(s) + 1)
  {
    if |s.forwardStack| == 0 then s
    else
      var r := HistoryState(s.forwardStack[0], s.backStack + [s.currentUrl], s.forwardStack[1..]);
      assert Timeline(r) == Timeline(s) by {
        assert [s.forwardStack[0]] + s.forwardStack[1..] == s.forwardStack;
      }
      AtTimeline(r);
      r
  }

  /** `reload()` leaves the history as it is; the page re-renders the frame. */
  function Reload(s: HistoryState): (r: HistoryState)
    ensures Timeline(r) == Timeline(s) && r.backStack == s.backStack
    ensures r == s
  {
    s
  }

  /** The back button is enabled exactly when pressing it changes the state. */
  function CanGoBack(s: HistoryState): (r: bool)
    ensures r <==> Back(s) != s
  {
    |s.backStack| > 0
  }

  /** The forward button is enabled exactly when pressing it changes the state. */
  function CanGoForward(s: HistoryState): (r: bool)
    ensures r <==> Forward(s) != s
  {
    |s.forwardStack| > 0
  }

  lemma {:induction false} BackThenForward(s: HistoryState)
    requires s.backStack != []
    ensures Forward(Back(s)) == s
  {
    var b := Back(s);
    assert Timeline(b) == Timeline(s) && Position(b) == Position(s) - 1;
    assert b.forwardStack != [];
    AtTimeline(s);
  }

  lemma {:induction false} ForwardThenBack(s: HistoryState)
    requires s.forwardStack != []
    ensures Back(Forward(s)) == s
  {
    var f := Forward(s);
    assert Timeline(f) == Timeline(s) && Position(f) == Position(s) + 1;
    assert f.backStack != [];
    AtTimeline(s);
  }

  /** Back and forward only move pages between the two stacks. */
  lemma StackSizesPreserved(s: HistoryState)
    ensures |Back(s).backStack| + |Back(s).forwardStack| == |s.backStack| + |s.forwardStack|
    ensures |Forward(s).backStack| + |Forward(s).forwardStack| == |s.backStack| + |s.forwardStack|
  {
  }

  /** Visiting a page from a page and going back returns to that page with the
      visited one as the only forward page. */
  lemma GoThenBack(s: HistoryState, url: string)
    requires s.currentUrl != ""
    ensures Back(Go(s, url)) == HistoryState(s.currentUrl, s.backStack, [url])
  {
    assert (s.backStack + [s.currentUrl])[..|s.backStack|] == s.backStack;
  }

  /** No deduplication: visiting the current page again still pushes it. */
  lemma GoSameUrlGrowsHistory(s: HistoryState)
    requires s.currentUrl != ""
    ensures Go(s, s.currentUrl).currentUrl == s.currentUrl
    ensures Go(s, s.currentUrl).backStack == s.backStack + [s.currentUrl]
  {
  }

  /** What holds of every state the hook can reach: the back stack never holds
      `''`, there is nothing to go forward to while no page is loaded, and `''`
      can sit in the forward stack only as its last entry. */
  predicate Consistent(s: HistoryState) {
    && "" !in s.backStack
    && (s.currentUrl == "" ==> s.forwardStack == [])
    && (forall i :: 0 <= i < |s.forwardStack| - 1 ==> s.forwardStack[i] != "")
  }

  datatype Action = Visit(url: string) | GoBack | GoForward | Refresh

  function Step(s: HistoryState, a: Action): HistoryState {
    match a
    case Visit(url) => Go(s, url)
    case GoBack => Back(s)
    case GoForward => Forward(s)
    case Refresh => Reload(s)
  }

  /** The state after a sequence of actions. */
  function Run(s: HistoryState, actions: seq<Action>): HistoryState
    decreases |actions|
  {
    if actions == [] then s else Run(Step(s, actions[0]), actions[1..])
  }

  lemma StepConsistent(s: HistoryState, a: Action)
    requires Consistent(s)
    ensures Consistent(Step(s, a))
  {
    match a
    case Visit(url) =>
    case GoBack =>
      if s.backStack != [] {
        var n := |s.backStack| - 1;
        assert s.backStack[n] in s.backStack;
        assert forall u :: u in s.backStack[..n] ==> u in s.backStack;
      }
    case GoForward =>
      if s.forwardStack != [] {
        var r := Forward(s);
        assert r.backStack == s.backStack + [s.currentUrl];
        assert r.forwardStack == s.forwardStack[1..];
      }
    case Refresh =>
  }

  lemma {:induction false} RunConsistent(s: HistoryState, actions: seq<Action>)
    requires Consistent(s)
    ensures Consistent(Run(s, actions))
    decreases |actions|
  {
    if actions != [] {
      StepConsistent(s, actions[0]);
      RunConsistent(Step(s, actions[0]), actions[1..]);
    }
  }

  /** Whatever the user does, the back stack never holds the empty URL. */
  lemma BackStackNeverEmptyUrl(actions: seq<Action>)
    ensures Consistent(Run(Initial, actions))
    ensures "" !in Run(Initial, actions).backStack
  {
    RunConsistent(Initial, actions);
  }
}
