/** The string primitives the front end relies on: `String.prototype.trim`,
    `toLowerCase`, `includes` and `startsWith`, on strings as `seq<char>`. */
module Text {
  import opened Wrappers

  /** The code points `trim()` removes: ECMAScript WhiteSpace and LineTerminator. */
  predicate IsWhitespace(c: char) {
    var n := c as int;
    n == 0x09 || n == 0x0A || n == 0x0B || n == 0x0C || n == 0x0D || n == 0x20
    || n == 0xA0 || n == 0x1680 || (0x2000 <= n <= 0x200A) || n == 0x2028
    || n == 0x2029 || n == 0x202F || n == 0x205F || n == 0x3000 || n == 0xFEFF
  }

  /** A string `trim()` turns into `''`: the empty string included. */
  predicate IsBlank(s: string) {
    forall i :: 0 <= i < |s| ==> IsWhitespace(s[i])
  }

  /** Neither end is whitespace. */
  predicate IsTrimmed(s: string) {
    s == [] || (!IsWhitespace(s[0]) && !IsWhitespace(s[|s| - 1]))
  }

  /** Number of whitespace characters at the start of `s`. */
  function LeadingSpace(s: string): (k: nat)
    ensures k <= |s|
    ensures forall i :: 0 <= i < k ==> IsWhitespace(s[i])
    ensures k < |s| ==> !IsWhitespace(s[k])
  {
    if |s| > 0 && IsWhitespace(s[0]) then 1 + LeadingSpace(s[1..]) else 0
  }

  /** Index just past the last character of `s` that is not whitespace. */
  function TrimmedEnd(s: string): (e: nat)
    ensures e <= |s|
    ensures forall i :: e <= i < |s| ==> IsWhitespace(s[i])
    ensures e > 0 ==> !IsWhitespace(s[e - 1])
  {
    if |s| > 0 && IsWhitespace(s[|s| - 1]) then TrimmedEnd(s[..|s| - 1]) else |s|
  }

  /** `r` is `s` with its surrounding whitespace cut off: a trimmed slice of
      `s` with only whitespace before it and after it. */
  ghost predicate StripsTo(s: string, r: string) {
    IsTrimmed(r)
    && exists k :: 0 <= k <= |s| - |r| && s[k..k + |r|] == r && IsBlank(s[..k]) && IsBlank(s[k + |r|..])
  }

  /** `s.trim()`: removes leading and trailing whitespace and nothing else. */
  function Trim(s: string): (r: string)
    ensures StripsTo(s, r)
    ensures r == [] <==> IsBlank(s)
    ensures IsTrimmed(s) ==> r == s
    ensures |r| <= |s|
  {
    var k := LeadingSpace(s);
    if k == |s| then
      assert s[0..0] == [] && s[..0] == [] && s[0..] == s;
      []
    else
      var e := TrimmedEnd(s);
      assert !IsWhitespace(s[k]);
      var r := s[k..e];
      assert r[0] == s[k] && r[|r| - 1] == s[e - 1];
      assert s[k..k + |r|] == r && s[k + |r|..] == s[e..];
      assert IsBlank(s[..k]) by {
        forall i | 0 <= i < k ensures IsWhitespace(s[..k][i]) { assert s[..k][i] == s[i]; }
      }
      assert IsBlank(s[e..]) by {
        forall i | 0 <= i < |s[e..]| ensures IsWhitespace(s[e..][i]) { assert s[e..][i] == s[e + i]; }
      }
      r
  }

  /** `StripsTo` pins the result down: the only string `s` strips to is `Trim(s)`. */
  lemma {:induction false} StripsToUnique(s: string, r: string)
    requires StripsTo(s, r)
    ensures r == Trim(s)
  {
    var k :| 0 <= k <= |s| - |r| && s[k..k + |r|] == r && IsBlank(s[..k]) && IsBlank(s[k + |r|..]);
    if r == [] {
      assert forall i :: 0 <= i < |s| ==> IsWhitespace(s[i]) by {
        forall i | 0 <= i < |s| ensures IsWhitespace(s[i]) {
          if i < k { assert s[i] == s[..k][i]; } else { assert s[i] == s[k..][i - k]; }
        }
      }
    } else {
      var l, e := LeadingSpace(s), TrimmedEnd(s);
      assert !IsWhitespace(s[k]) && !IsWhitespace(s[k + |r| - 1]) by {
        assert s[k] == r[0] && s[k + |r| - 1] == r[|r| - 1];
      }
      assert forall i :: 0 <= i < k ==> IsWhitespace(s[i]) by {
        forall i | 0 <= i < k ensures IsWhitespace(s[i]) { assert s[i] == s[..k][i]; }
      }
      assert forall i :: k + |r| <= i < |s| ==> IsWhitespace(s[i]) by {
        forall i | k + |r| <= i < |s| ensures IsWhitespace(s[i]) { assert s[i] == s[k + |r|..][i - k - |r|]; }
      }
      assert l == k && e == k + |r|;
    }
  }

  /** Trimming a lower-case string leaves it lower-case. */
  lemma {:induction false} TrimKeepsLower(s: string)
    requires Lower(s) == s
    ensures Lower(Trim(s)) == Trim(s)
  {
    var k := LeadingSpace(s);
    if k < |s| {
      var t := s[k..TrimmedEnd(s)];
      forall i | 0 <= i < |t|
        ensures Lower(t)[i] == t[i]
      {
        calc {
          Lower(t)[i];
          LowerChar(t[i]);
          LowerChar(Lower(s)[k + i]);
          Lower(s)[k + i];
        }
      }
    }
  }

  lemma TrimIdempotent(s: string)
    ensures Trim(Trim(s)) == Trim(s)
  {
  }

  /** Gluing two non-empty trimmed strings gives a trimmed string. */
  lemma TrimmedConcat(a: string, b: string)
    requires a != [] && b != [] && IsTrimmed(a) && IsTrimmed(b)
    ensures IsTrimmed(a + b) && Trim(a + b) == a + b
  {
  }

  /** The validation both name forms apply: `name.trim()` when it is not blank. */
  function NonBlankTrimmed(s: string): (r: Option<string>)
    ensures r.None? <==> IsBlank(s)
    ensures r.Some? ==> r.value != [] && IsTrimmed(r.value) && r.value == Trim(s)
  {
    var t := Trim(s);
    if t == [] then None else Some(t)
  }

  /** `toLowerCase` on one character, for the ASCII letters. */
  function LowerChar(c: char): char {
    if 'A' <= c <= 'Z' then (c as int + 32) as char else c
  }

  /** `s.toLowerCase()` (ASCII letters only). */
  function Lower(s: string): (r: string)
    ensures |r| == |s|
    ensures forall i :: 0 <= i < |s| ==> r[i] == LowerChar(s[i])
  {
    if s == [] then [] else [LowerChar(s[0])] + Lower(s[1..])
  }

  lemma {:induction false} LowerIdempotent(s: string)
    ensures Lower(Lower(s)) == Lower(s)
  {
    var l := Lower(s);
    assert forall i :: 0 <= i < |s| ==> Lower(l)[i] == l[i];
  }

  /** Lower-casing commutes with taking a prefix. */
  lemma LowerPrefix(s: string, n: nat)
    ensures n <= |s| ==> Lower(s)[..n] == Lower(s[..n])
  {
    if n <= |s| {
      assert forall i :: 0 <= i < n ==> Lower(s)[..n][i] == Lower(s[..n])[i];
    }
  }

  lemma LowerConcat(a: string, b: string)
    ensures Lower(a + b) == Lower(a) + Lower(b)
  {
    assert forall i :: 0 <= i < |a + b| ==> Lower(a + b)[i] == (Lower(a) + Lower(b))[i];
  }

  /** Lower-casing neither creates nor removes whitespace. */
  lemma LowerKeepsBlank(s: string)
    ensures IsBlank(Lower(s)) <==> IsBlank(s)
  {
  }

  /** `s.startsWith(p)`. */
  predicate IsPrefix(p: string, s: string) {
    |p| <= |s| && s[..|p|] == p
  }

  /** `sub` occurs in `s` at index `i`. */
  predicate OccursAt(s: string, sub: string, i: int) {
    0 <= i && i + |sub| <= |s| && s[i..i + |sub|] == sub
  }

  /** `s.includes(sub)`, by scanning from the left. */
  predicate Contains(s: string, sub: string)
    decreases |s|
  {
    IsPrefix(sub, s) || (|s| > 0 && Contains(s[1..], sub))
  }

  /** A match found by the scan is an occurrence at some index. */
  lemma {:induction false} ContainsHasOccurrence(s: string, sub: string) returns (i: nat)
    requires Contains(s, sub)
    ensures OccursAt(s, sub, i)
    decreases |s|
  {
    if IsPrefix(sub, s) {
      i := 0;
    } else {
      var j := ContainsHasOccurrence(s[1..], sub);
      assert s[1..][j..j + |sub|] == s[j + 1..j + 1 + |sub|];
      i := j + 1;
    }
  }

  /** Every occurrence, at any index, is found by the scan. */
  lemma {:induction false} OccurrenceIsContained(s: string, sub: string, i: int)
    requires OccursAt(s, sub, i)
    ensures Contains(s, sub)
    decreases i
  {
    if i == 0 {
      assert s[..|sub|] == s[i..i + |sub|];
    } else {
      assert s[1..][i - 1..i - 1 + |sub|] == s[i..i + |sub|];
      OccurrenceIsContained(s[1..], sub, i - 1);
    }
  }

  /** `includes` holds exactly when there is an occurrence at some index. */
  lemma ContainsIffOccurs(s: string, sub: string)
    ensures Contains(s, sub) <==> exists i :: OccursAt(s, sub, i)
  {
    if Contains(s, sub) {
      var i := ContainsHasOccurrence(s, sub);
      assert OccursAt(s, sub, i as int);
    }
    if exists i :: OccursAt(s, sub, i) {
      var i :| OccursAt(s, sub, i);
      OccurrenceIsContained(s, sub, i);
    }
  }

  /** Every string includes the empty string. */
  lemma ContainsEmpty(s: string)
    ensures Contains(s, "")
  {
  }
}
