/** The spawn log both spawner panels keep: the newest entry first, at most
    twenty entries. */
module SpawnLog {
  const MaxEntries: nat := 20

  function Min(a: int, b: int): int {
    if a < b then a else b
  }

  /** `[entry, ...prev].slice(0, 20)`. */
  function Push(log: seq<string>, entry: string): (r: seq<string>)
    ensures |r| == Min(|log| + 1, MaxEntries)
    ensures r[0] == entry
    ensures forall i :: 1 <= i < |r| ==> r[i] == log[i - 1]
  {
    ([entry] + log)[..Min(|log| + 1, MaxEntries)]
  }

  /** `s` back to front. */
  function Reverse(s: seq<string>): (r: seq<string>)
    ensures |r| == |s|
    ensures forall i :: 0 <= i < |s| ==> r[i] == s[|s| - 1 - i]
  {
    if s == [] then [] else [s[|s| - 1]] + Reverse(s[..|s| - 1])
  }

  /** The log after the entries of `es` were pushed, oldest first, onto an
      empty log. */
  function Replay(es: seq<string>): seq<string> {
    if es == [] then [] else Push(Replay(es[..|es| - 1]), es[|es| - 1])
  }

  /** The newest `n` entries of `es`, newest first. */
  function Newest(es: seq<string>, n: nat): (r: seq<string>)
    requires n <= |es|
    ensures |r| == n
  {
    Reverse(es[|es| - n..])
  }

  /** Whatever was pushed, the log holds the newest twenty entries (or all of
      them, if fewer), newest first; the older ones are gone. */
  lemma {:induction false} ReplayKeepsNewest(es: seq<string>)
    ensures Replay(es) == Newest(es, Min(|es|, MaxEntries))
    decreases |es|
  {
    if es != [] {
      var prev := es[..|es| - 1];
      var e := es[|es| - 1];
      ReplayKeepsNewest(prev);
      var r := Replay(es);
      var expected := Newest(es, Min(|es|, MaxEntries));
      assert r == Push(Replay(prev), e);
      assert |r| == |expected|;
      forall i | 0 <= i < |r|
        ensures r[i] == expected[i]
      {
        if i > 0 {
          assert r[i] == Replay(prev)[i - 1];
        }
      }
    }
  }

  /** The log never holds more than twenty entries. */
  lemma ReplayBounded(es: seq<string>)
    ensures |Replay(es)| <= MaxEntries
  {
    ReplayKeepsNewest(es);
  }
}
