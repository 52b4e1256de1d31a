/** The prefab spawner panel: its own catalog search (lower-cased but not
    trimmed, description not searched), the record it adds to the spawn list,
    and its bounded spawn log. */
module PrefabSpawnerPanel {
  import opened Wrappers
  import opened Text
  import opened PrefabCatalog
  import opened SpawnLog
  import PrefabListPanel

  predicate SpawnerMatches(p: PrefabEntry, q: string) {
    Contains(Lower(p.name), q) || Contains(Lower(p.id), q) || FieldContains(p.category, q)
  }

  /** `filteredCatalog`: the entries whose name, id or category contains the
      lower-cased query, in catalog order; nothing without a catalog. */
  function FilteredCatalog(catalog: Option<seq<PrefabEntry>>, searchQuery: string): (r: seq<PrefabEntry>)
    ensures catalog.None? ==> r == []
    ensures catalog.Some? && searchQuery == "" ==> r == catalog.value
    ensures catalog.Some? ==> IsSubsequence(r, catalog.value) && |r| <= |catalog.value|
    ensures catalog.Some? ==> forall p :: p in r <==> p in catalog.value && SpawnerMatches(p, Lower(searchQuery))
    ensures catalog.Some? ==> forall p :: multiset(r)[p] == if SpawnerMatches(p, Lower(searchQuery)) then multiset(catalog.value)[p] else 0
  {
    if catalog.None? then []
    else
      var query := Lower(searchQuery);
      assert searchQuery == "" ==> forall i :: 0 <= i < |catalog.value| ==> SpawnerMatches(catalog.value[i], query) by {
        if searchQuery == "" {
          forall i | 0 <= i < |catalog.value| ensures SpawnerMatches(catalog.value[i], query) {
            ContainsEmpty(Lower(catalog.value[i].name));
          }
        }
      }
      Filter(catalog.value, p => SpawnerMatches(p, query))
  }

  /** For a query with no case or surrounding space to normalise, everything
      this panel finds the prefab list finds as well. */
  lemma SpawnerResultsAlsoListed(catalog: Option<seq<PrefabEntry>>, q: string)
    requires Lower(q) == q && IsTrimmed(q)
    ensures forall p :: p in FilteredCatalog(catalog, q) ==> p in PrefabListPanel.FilteredPrefabs(catalog, q)
  {
    assert PrefabListPanel.ListQuery(q) == q;
  }

  /** The two searches differ: a query of one space keeps everything in the
      list (it trims to nothing) and nothing here (no name contains a space),
      and a description-only match is listed there but not here. */
  lemma {:induction false} SearchesDiffer()
    ensures var e := PrefabEntry("a", "a", None, None);
      PrefabListPanel.FilteredPrefabs(Some([e]), " ") == [e] && FilteredCatalog(Some([e]), " ") == []
    ensures var d := PrefabEntry("a", "a", None, Some("z"));
      PrefabListPanel.FilteredPrefabs(Some([d]), "z") == [d] && FilteredCatalog(Some([d]), "z") == []
  {
    var e := PrefabEntry("a", "a", None, None);
    assert Lower("a") == "a" by { assert LowerChar('a') == 'a'; }
    assert Lower(" ") == " " by { assert LowerChar(' ') == ' '; }
    assert Lower("z") == "z" by { assert LowerChar('z') == 'z'; }
    assert IsBlank(" ") by { assert IsWhitespace(" "[0]); }
    assert !IsPrefix(" ", "a") by { assert "a"[..1][0] == 'a'; }
    assert !Contains("", " ");
    assert "a"[1..] == "";
    assert !Contains("a", " ");
    assert !SpawnerMatches(e, " ");
    assert FilteredCatalog(Some([e]), " ") == [];
    var d := PrefabEntry("a", "a", None, Some("z"));
    assert !IsPrefix("z", "a") by { assert "a"[..1][0] == 'a'; }
    assert !Contains("z", " ") by {
      assert "z"[1..] == "";
      assert !IsPrefix(" ", "z") by { assert "z"[..1][0] == 'z'; }
    }
    assert !Contains("a", "z");
    assert !SpawnerMatches(d, "z");
    assert IsPrefix("z", "z");
    assert FieldContains(d.description, "z");
    assert IsTrimmed("z") by { assert !IsWhitespace("z"[0]); }
    assert PrefabListPanel.ListQuery("z") == "z";
    assert PrefabListPanel.ListMatches(d, "z");
    assert FilteredCatalog(Some([d]), "z") == [];
  }

  /** `{ name, prefabId, position }`: an entry of the spawn list. */
  datatype PrefabRecord = PrefabRecord(name: string, prefabId: string, position: string)

  /** The spawn list as the opaque spawner query returns it. */
  datatype PrefabSpawner = PrefabSpawner(prefabs: seq<PrefabRecord>)

  /** `prefabSpawner?.prefabs || []`. */
  function SpawnList(data: Option<PrefabSpawner>): (r: seq<PrefabRecord>)
    ensures data.None? ==> r == []
    ensures data.Some? ==> r == data.value.prefabs
  {
    if data.Some? then data.value.prefabs else []
  }

  const Origin := "0,0,0"

  /** The record `handleAddPrefab` sends for a catalog entry: the entry's id
      and name, placed at the origin. */
  function AddPrefabRequest(entry: PrefabEntry): (r: PrefabRecord)
    ensures r.prefabId == entry.id && r.name == entry.name && r.position == Origin
  {
    PrefabRecord(entry.name, entry.id, Origin)
  }

  /** `${timestamp} - Spawned: ${prefabName} (${prefabId})`. */
  function PrefabLogEntry(timestamp: string, prefabName: string, prefabId: string): (entry: string)
    ensures |entry| == |timestamp| + |" - Spawned: "| + |prefabName| + 2 + |prefabId| + 1
    ensures entry[..|timestamp|] == timestamp
    ensures entry[|timestamp|..|timestamp| + 12] == " - Spawned: "
    ensures entry[|timestamp| + 12..|timestamp| + 12 + |prefabName|] == prefabName
    ensures entry[|timestamp| + 12 + |prefabName|..|timestamp| + 14 + |prefabName|] == " ("
    ensures entry[|entry| - 1 - |prefabId|..|entry| - 1] == prefabId && entry[|entry| - 1] == ')'
  {
    timestamp + " - Spawned: " + prefabName + " (" + prefabId + ")"
  }

  class PrefabSpawnerPanel {
    var spawnLogs: seq<string>

    ghost predicate Valid()
      reads this
    {
      |spawnLogs| <= MaxEntries
    }

    constructor()
      ensures Valid() && spawnLogs == []
    {
      spawnLogs := [];
    }

    /** `handleSpawnPrefab`: the entry goes to the spawn history first; only
        when that call succeeds (`historyOk`) is it pushed onto the log. */
    method HandleSpawnPrefab(timestamp: string, prefabName: string, prefabId: string, historyOk: bool)
      returns (entry: string)
      requires Valid()
      modifies this
      ensures Valid()
      ensures entry == PrefabLogEntry(timestamp, prefabName, prefabId)
      ensures historyOk ==> spawnLogs == Push(old(spawnLogs), entry)
      ensures !historyOk ==> spawnLogs == old(spawnLogs)
    {
      entry := PrefabLogEntry(timestamp, prefabName, prefabId);
      if historyOk {
        spawnLogs := Push(spawnLogs, entry);
      }
    }
  }
}
