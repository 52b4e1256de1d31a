/** The prefab list's search: the query is lower-cased and trimmed, and an
    entry is kept when its name, id, category or description contains it. */
module PrefabListPanel {
  import opened Wrappers
  import opened Text
  import opened PrefabCatalog

  /** `searchQuery.toLowerCase().trim()`. */
  function ListQuery(searchQuery: string): (q: string)
    ensures StripsTo(Lower(searchQuery), q)
    ensures Lower(q) == q
    ensures q == [] <==> IsBlank(searchQuery)
  {
    LowerKeepsBlank(searchQuery);
    LowerIdempotent(searchQuery);
    TrimKeepsLower(Lower(searchQuery));
    Trim(Lower(searchQuery))
  }

  predicate ListMatches(p: PrefabEntry, q: string) {
    Contains(Lower(p.name), q) || Contains(Lower(p.id), q)
    || FieldContains(p.category, q) || FieldContains(p.description, q)
  }

  /** `filteredPrefabs`: nothing without a catalog, the whole catalog for a
      blank query, otherwise the matching entries in catalog order. */
  function FilteredPrefabs(catalog: Option<seq<PrefabEntry>>, searchQuery: string): (r: seq<PrefabEntry>)
    ensures catalog.None? ==> r == []
    ensures catalog.Some? && IsBlank(searchQuery) ==> r == catalog.value
    ensures catalog.Some? ==> IsSubsequence(r, catalog.value) && |r| <= |catalog.value|
    ensures catalog.Some? ==> forall p :: p in r <==> p in catalog.value && ListMatches(p, ListQuery(searchQuery))
    ensures catalog.Some? ==> forall p :: multiset(r)[p] == if ListMatches(p, ListQuery(searchQuery)) then multiset(catalog.value)[p] else 0
  {
    if catalog.None? then []
    else
      var query := ListQuery(searchQuery);
      if query == [] then
        assert forall p :: ListMatches(p, query) by {
          forall p ensures ListMatches(p, query) { ContainsEmpty(Lower(p.name)); }
        }
        SubsequenceReflexive(catalog.value);
        catalog.value
      else Filter(catalog.value, p => ListMatches(p, query))
  }

  /** The search ignores letter case: an already lower-cased query finds the
      same entries. */
  lemma {:induction false} SearchIgnoresCase(catalog: Option<seq<PrefabEntry>>, searchQuery: string)
    ensures FilteredPrefabs(catalog, Lower(searchQuery)) == FilteredPrefabs(catalog, searchQuery)
  {
    LowerIdempotent(searchQuery);
  }

  /** An entry without category and description is found only through its
      name or id. */
  lemma AbsentFieldsNeverMatch(p: PrefabEntry, q: string)
    requires p.category.None? && p.description.None?
    ensures ListMatches(p, q) <==> Contains(Lower(p.name), q) || Contains(Lower(p.id), q)
  {
  }
}
