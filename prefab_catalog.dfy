/** The static prefab catalog the two prefab panels search, and the search
    building blocks they share. */
module PrefabCatalog {
  import opened Wrappers
  import opened Text

  /** One catalog entry; `category` and `description` are optional. */
  datatype PrefabEntry = PrefabEntry(id: string, name: string, category: Option<string>, description: Option<string>)

  /** `a` is `b` with some elements left out, order kept. */
  predicate IsSubsequence<T(==)>(a: seq<T>, b: seq<T>)
    decreases |b|
  {
    if a == [] then true
    else if b == [] then false
    else if a[0] == b[0] then IsSubsequence(a[1..], b[1..])
    else IsSubsequence(a, b[1..])
  }

  /** Every sequence is a subsequence of itself. */
  lemma {:induction false} SubsequenceReflexive<T>(a: seq<T>)
    ensures IsSubsequence(a, a)
    decreases |a|
  {
    if a != [] {
      SubsequenceReflexive(a[1..]);
    }
  }

  /** `array.filter(keep)`: the kept elements, in their order. */
  function Filter<T(==)>(xs: seq<T>, keep: T -> bool): (r: seq<T>)
    ensures |r| <= |xs|
    ensures forall x :: x in r ==> x in xs && keep(x)
    ensures forall x :: x in xs && keep(x) ==> x in r
    ensures IsSubsequence(r, xs)
    ensures forall x :: x in xs ==> multiset(r)[x] == if keep(x) then multiset(xs)[x] else 0
    ensures (forall i :: 0 <= i < |xs| ==> keep(xs[i])) ==> r == xs
  {
    if xs == [] then []
    else
      var rest := Filter(xs[1..], keep);
      var r := if keep(xs[0]) then [xs[0]] + rest else rest;
      FilterStep(xs, keep, rest, r);
      r
  }

  /** One step of `Filter`: what holds of the filtered tail holds of the
      whole list once its head is kept or dropped. */
  lemma FilterStep<T>(xs: seq<T>, keep: T -> bool, rest: seq<T>, r: seq<T>)
    requires xs != []
    requires |rest| <= |xs| - 1
    requires forall x :: x in rest ==> x in xs[1..] && keep(x)
    requires IsSubsequence(rest, xs[1..])
    requires forall x :: x in xs[1..] ==> multiset(rest)[x] == if keep(x) then multiset(xs[1..])[x] else 0
    requires (forall i :: 0 <= i < |xs| - 1 ==> keep(xs[1..][i])) ==> rest == xs[1..]
    requires r == if keep(xs[0]) then [xs[0]] + rest else rest
    ensures |r| <= |xs|
    ensures forall x :: x in r ==> x in xs && keep(x)
    ensures IsSubsequence(r, xs)
    ensures forall x :: x in xs ==> multiset(r)[x] == if keep(x) then multiset(xs)[x] else 0
    ensures forall x :: x in xs && keep(x) ==> x in r
    ensures (forall i :: 0 <= i < |xs| ==> keep(xs[i])) ==> r == xs
  {
    assert xs == [xs[0]] + xs[1..];
    assert forall x :: x in xs[1..] ==> x in xs;
    if keep(xs[0]) {
      assert r[1..] == rest;
    } else {
      assert rest == [] || rest[0] != xs[0];
    }
    assert multiset(xs) == multiset{xs[0]} + multiset(xs[1..]);
    assert multiset(r) == (if keep(xs[0]) then multiset{xs[0]} else multiset{}) + multiset(rest);
    forall x | x in xs
      ensures multiset(r)[x] == if keep(x) then multiset(xs)[x] else 0
    {
      if x !in xs[1..] {
        assert multiset(rest)[x] == 0 && multiset(xs[1..])[x] == 0;
      }
    }
    forall x | x in xs && keep(x)
      ensures x in r
    {
      assert multiset(r)[x] == multiset(xs)[x] > 0;
    }
    if forall i :: 0 <= i < |xs| ==> keep(xs[i]) {
      assert forall i :: 0 <= i < |xs| - 1 ==> keep(xs[1..][i]) by {
        forall i | 0 <= i < |xs| - 1 ensures keep(xs[1..][i]) { assert xs[1..][i] == xs[i + 1]; }
      }
    }
  }

  /** `field && field.toLowerCase().includes(query)`: an absent or empty
      field never matches. */
  predicate FieldContains(field: Option<string>, query: string) {
    field.Some? && field.value != "" && Contains(Lower(field.value), query)
  }

  /** A field matches exactly when the query occurs, at some index, in the
      lower-cased non-empty field. */
  lemma FieldContainsOccurs(field: Option<string>, query: string)
    ensures FieldContains(field, query) <==>
      field.Some? && field.value != "" && exists i :: OccursAt(Lower(field.value), query, i)
  {
    if FieldContains(field, query) {
      var i := ContainsHasOccurrence(Lower(field.value), query);
      assert OccursAt(Lower(field.value), query, i as int);
    }
    if field.Some? && field.value != "" && exists i :: OccursAt(Lower(field.value), query, i) {
      var i :| OccursAt(Lower(field.value), query, i);
      OccurrenceIsContained(Lower(field.value), query, i);
    }
  }
}
