/** The browser page: an address bar that normalises what the user typed
    before navigating, back/forward buttons, and a reload button that bumps the
    frame's key. */
module BrowserPage {
  import opened Wrappers
  import opened Text
  import opened BrowserHistory

  /** The test `/^https?:\/\//i`. The pattern is lower-case ASCII and a
      case-insensitive regular expression without the `u` flag folds ASCII
      letters only, so comparing against the lower-cased URL is exact. */
  predicate HasHttpScheme(u: string) {
    IsPrefix("http://", Lower(u)) || IsPrefix("https://", Lower(u))
  }

  /** The scheme test looks at the URL's own first seven or eight characters:
      lower-cased, they spell `http://` or `https://`. */
  lemma HasHttpSchemeByPrefix(u: string)
    ensures HasHttpScheme(u) <==>
      (|u| >= 7 && Lower(u[..7]) == "http://") || (|u| >= 8 && Lower(u[..8]) == "https://")
  {
    LowerPrefix(u, 7);
    LowerPrefix(u, 8);
  }

  lemma PrependedHttpsHasScheme(t: string)
    ensures HasHttpScheme("https://" + t)
  {
    LowerConcat("https://", t);
    assert Lower("https://") == "https://";
  }

  /** `handleGo`: nothing for blank input; otherwise the trimmed input, with
      `https://` put in front unless it already starts with `http://` or
      `https://` in any letter case. */
  function NormalizeUrl(input: string): (r: Option<string>)
    ensures r.None? <==> IsBlank(input)
    ensures r.Some? ==> HasHttpScheme(r.value) && r.value != "" && IsTrimmed(r.value)
    ensures r.Some? && HasHttpScheme(Trim(input)) ==> r.value == Trim(input)
    ensures r.Some? && !HasHttpScheme(Trim(input)) ==> r.value == "https://" + Trim(input)
  {
    var t := Trim(input);
    if t == "" then None
    else if HasHttpScheme(t) then Some(t)
    else
      PrependedHttpsHasScheme(t);
      TrimmedConcat("https://", t);
      Some("https://" + t)
  }

  /** Normalising a normalised URL leaves it unchanged. */
  lemma NormalizeIdempotent(input: string)
    requires NormalizeUrl(input).Some?
    ensures NormalizeUrl(NormalizeUrl(input).value) == NormalizeUrl(input)
  {
    var u := NormalizeUrl(input).value;
    assert Trim(u) == u;
  }

  /** The scheme test ignores letter case: `HTTP://` and `http://` alike. */
  lemma SchemeTestIgnoresCase(u: string)
    ensures HasHttpScheme(Lower(u)) == HasHttpScheme(u)
  {
    LowerIdempotent(u);
  }

  /** What the page's own use of the history keeps true: when no page is
      loaded nothing is stacked, and every stored URL carries an http(s) scheme. */
  ghost predicate HttpOnly(h: HistoryState) {
    && (h.currentUrl == "" ==> h.backStack == [] && h.forwardStack == [])
    && (h.currentUrl != "" ==> HasHttpScheme(h.currentUrl))
    && (forall u :: u in h.backStack ==> HasHttpScheme(u))
    && (forall u :: u in h.forwardStack ==> HasHttpScheme(u))
  }

  lemma {:induction false} GoKeepsHttpOnly(h: HistoryState, url: string)
    requires HttpOnly(h) && HasHttpScheme(url)
    ensures HttpOnly(Go(h, url))
  {
    var r := Go(h, url);
    forall u | u in r.backStack ensures HasHttpScheme(u) {
      if h.currentUrl != "" {
        assert r.backStack == h.backStack + [h.currentUrl];
      }
    }
  }

  lemma {:induction false} BackKeepsHttpOnly(h: HistoryState)
    requires HttpOnly(h)
    ensures HttpOnly(Back(h))
  {
    if h.backStack != [] {
      var n := |h.backStack| - 1;
      var r := Back(h);
      assert r.currentUrl == h.backStack[n] && h.backStack[n] in h.backStack;
      assert r.backStack == h.backStack[..n];
      assert forall u :: u in h.backStack[..n] ==> u in h.backStack;
      assert r.forwardStack == [h.currentUrl] + h.forwardStack;
    }
  }

  lemma {:induction false} ForwardKeepsHttpOnly(h: HistoryState)
    requires HttpOnly(h)
    ensures HttpOnly(Forward(h))
  {
    if h.forwardStack != [] {
      var r := Forward(h);
      assert r.currentUrl == h.forwardStack[0] && h.forwardStack[0] in h.forwardStack;
      assert r.backStack == h.backStack + [h.currentUrl];
      assert r.forwardStack == h.forwardStack[1..];
      assert forall u :: u in h.forwardStack[1..] ==> u in h.forwardStack;
    }
  }

  /** The history after `handleGo`: unchanged for blank input, otherwise
      `go` to the normalised URL; either way every stored URL stays schemed. */
  function HistoryAfterGo(h: HistoryState, typed: string): (r: HistoryState)
    requires HttpOnly(h)
    ensures HttpOnly(r)
    ensures NormalizeUrl(typed).None? ==> r == h
    ensures NormalizeUrl(typed).Some? ==> r == Go(h, NormalizeUrl(typed).value)
  {
    match NormalizeUrl(typed)
    case None => h
    case Some(url) =>
      GoKeepsHttpOnly(h, url);
      Go(h, url)
  }

  /** The `useEffect` on `currentUrl`: the address bar shows the new current
      URL whenever it changed, and keeps what was typed otherwise. */
  function SyncedInput(typed: string, before: HistoryState, after: HistoryState): (shown: string)
    ensures shown == typed || shown == after.currentUrl
    ensures after.currentUrl != before.currentUrl ==> shown == after.currentUrl
    ensures after.currentUrl == before.currentUrl ==> shown == typed
  {
    if after.currentUrl != before.currentUrl then after.currentUrl else typed
  }

  class BrowserPage {
    var history: HistoryState
    var inputUrl: string
    var iframeKey: int

    ghost predicate Valid()
      reads this
    {
      HttpOnly(history) && iframeKey >= 0
    }

    constructor()
      ensures Valid()
      ensures history == Initial && inputUrl == "" && iframeKey == 0
    {
      history := Initial;
      inputUrl := "";
      iframeKey := 0;
    }

    /** The address bar's `onChange`. */
    method Type(text: string)
      modifies this
      ensures inputUrl == text && history == old(history) && iframeKey == old(iframeKey)
    {
      inputUrl := text;
    }

    /** The Go button and the Enter key. */
    method HandleGo()
      requires Valid()
      modifies this
      ensures Valid()
      ensures history == HistoryAfterGo(old(history), old(inputUrl))
      ensures inputUrl == SyncedInput(old(inputUrl), old(history), history)
      ensures iframeKey == old(iframeKey)
    {
      var before, typed := history, inputUrl;
      history := HistoryAfterGo(before, typed);
      inputUrl := SyncedInput(typed, before, history);
    }

    /** The back button calls `back` directly. */
    method HandleBack()
      requires Valid()
      modifies this
      ensures Valid()
      ensures history == Back(old(history))
      ensures inputUrl == SyncedInput(old(inputUrl), old(history), history)
      ensures iframeKey == old(iframeKey)
    {
      var before := history;
      BackKeepsHttpOnly(history);
      history := Back(history);
      inputUrl := SyncedInput(inputUrl, before, history);
    }

    /** The forward button calls `forward` directly. */
    method HandleForward()
      requires Valid()
      modifies this
      ensures Valid()
      ensures history == Forward(old(history))
      ensures inputUrl == SyncedInput(old(inputUrl), old(history), history)
      ensures iframeKey == old(iframeKey)
    {
      var before := history;
      ForwardKeepsHttpOnly(history);
      history := Forward(history);
      inputUrl := SyncedInput(inputUrl, before, history);
    }

    /** `handleReload`: the history is untouched and the frame key goes up by one. */
    method HandleReload()
      requires Valid()
      modifies this
      ensures Valid()
      ensures history == Reload(old(history)) == old(history)
      ensures iframeKey == old(iframeKey) + 1
      ensures inputUrl == old(inputUrl)
    {
      history := Reload(history);
      iframeKey := iframeKey + 1;
    }
  }
}
