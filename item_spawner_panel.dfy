/** The item spawner panel: adding a named item, spawning one (logged), and
    removing one by name. */
module ItemSpawnerPanel {
  import opened Wrappers
  import opened Text
  import opened Backend
  import opened SpawnLog
  import Queries

  /** `${timestamp} - Spawned: ${itemName}`. */
  function ItemLogEntry(timestamp: string, itemName: string): (entry: string)
    ensures |entry| == |timestamp| + |" - Spawned: "| + |itemName|
    ensures entry[..|timestamp|] == timestamp
    ensures entry[|timestamp|..|timestamp| + 12] == " - Spawned: "
    ensures entry[|timestamp| + 12..] == itemName
  {
    timestamp + " - Spawned: " + itemName
  }

  /** The name a remove button sends: the row's item name, not its index. */
  function RemoveRequest(items: seq<Item>, row: nat): (name: string)
    requires row < |items|
    ensures name == items[row].name
  {
    items[row].name
  }

  /** Two rows holding items of the same name send the same removal, so a
      removal cannot tell them apart. */
  lemma RemovalIsByName(items: seq<Item>, i: nat, j: nat)
    requires i < |items| && j < |items| && items[i].name == items[j].name
    ensures RemoveRequest(items, i) == RemoveRequest(items, j)
  {
  }

  class ItemSpawnerPanel {
    var newItemName: string
    var spawnLogs: seq<string>

    ghost predicate Valid()
      reads this
    {
      |spawnLogs| <= MaxEntries
    }

    constructor()
      ensures Valid() && newItemName == "" && spawnLogs == []
    {
      newItemName := "";
      spawnLogs := [];
    }

    /** The text field's `onChange`. */
    method Type(text: string)
      modifies this
      ensures newItemName == text && spawnLogs == old(spawnLogs)
    {
      newItemName := text;
    }

    /** `handleAddItem`: a blank name is rejected without a call; otherwise
        the trimmed name is added, and the field is cleared only when the add
        succeeds. Returns the name sent, if any. */
    method HandleAddItem(client: Queries.Client, draw: real, remoteOk: bool) returns (sent: Option<string>)
      requires client.Valid() && 0.0 <= draw < 1.0
      modifies this, client
      ensures client.Valid()
      ensures spawnLogs == old(spawnLogs)
      ensures sent == NonBlankTrimmed(old(newItemName))
      ensures sent.None? ==>
        newItemName == old(newItemName) && client.sent == old(client.sent)
        && client.stale == old(client.stale) && client.cached == old(client.cached)
      ensures sent.Some? ==> sent.value != "" && IsTrimmed(sent.value)
      ensures sent.Some? && client.hasActor ==>
        client.sent == old(client.sent) + [Queries.AddItemCall(Item(sent.value, Queries.TypeId(draw)))]
      ensures sent.Some? && !client.hasActor ==> client.sent == old(client.sent)
      ensures sent.Some? && client.hasActor && remoteOk ==> newItemName == ""
      ensures sent.Some? && !(client.hasActor && remoteOk) ==> newItemName == old(newItemName)
      ensures client.cached == old(client.cached)
      ensures sent.Some? && client.hasActor && remoteOk ==>
        client.stale == old(client.stale) + {Queries.ItemSpawnerKey, Queries.CurrentUserProfileKey} * client.cached
      ensures !(sent.Some? && client.hasActor && remoteOk) ==> client.stale == old(client.stale)
    {
      sent := NonBlankTrimmed(newItemName);
      if sent.None? {
        return;
      }
      var outcome := client.AddItem(sent.value, draw, remoteOk);
      if outcome.Pass? {
        newItemName := "";
      }
    }

    /** `handleSpawnItem`: the entry goes to the spawn history first; only
        when that call succeeds (`historyOk`) is it pushed onto the log. */
    method HandleSpawnItem(timestamp: string, itemName: string, historyOk: bool) returns (entry: string)
      requires Valid()
      modifies this
      ensures Valid()
      ensures newItemName == old(newItemName)
      ensures entry == ItemLogEntry(timestamp, itemName)
      ensures historyOk ==> spawnLogs == Push(old(spawnLogs), entry)
      ensures !historyOk ==> spawnLogs == old(spawnLogs)
    {
      entry := ItemLogEntry(timestamp, itemName);
      if historyOk {
        spawnLogs := Push(spawnLogs, entry);
      }
    }
  }
}
