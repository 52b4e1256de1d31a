/** The browser's `localStorage`: string values under string keys. Access can
    be refused (private browsing, blocked storage) and a write can fail (quota),
    in which case the call throws. */
module LocalStorage {
  import opened Wrappers

  datatype StorageError = StorageThrew

  class Store {
    var entries: map<string, string>
    const readable: bool
    const writable: bool

    constructor(entries: map<string, string>, readable: bool, writable: bool)
      ensures this.entries == entries && this.readable == readable && this.writable == writable
    {
      this.entries := entries;
      this.readable := readable;
      this.writable := writable;
    }

    /** `getItem(key)`: the stored string, `null` for a missing key, or a throw. */
    function GetItem(key: string): (r: Result<Option<string>, StorageError>)
      reads this
      ensures r.Err? <==> !readable
      ensures r.Ok? ==> (r.value.Some? <==> key in entries)
      ensures r.Ok? && key in entries ==> r.value.value == entries[key]
    {
      if !readable then Err(StorageThrew)
      else if key in entries then Ok(Some(entries[key]))
      else Ok(None)
    }

    /** `setItem(key, value)`: stores the value, or throws and stores nothing. */
    method SetItem(key: string, value: string) returns (r: Outcome<StorageError>)
      modifies this
      ensures writable ==> r == Pass && entries == old(entries)[key := value]
      ensures !writable ==> r == Fail(StorageThrew) && entries == old(entries)
    {
      if writable {
        entries := entries[key := value];
        r := Pass;
      } else {
        r := Fail(StorageThrew);
      }
    }
  }
}
