/** The records exchanged with the remote canister, as its interface declares them. */
module Backend {
  import opened Wrappers

  /** The four gameplay flags the backend stores, under its own names. */
  datatype BackendModSettings = BackendModSettings(
    noclipEnabled: bool,
    infiniteManaEnabled: bool,
    moonJumpEnabled: bool,
    infiniteHealthEnabled: bool)

  datatype Item = Item(name: string, typeId: int)

  datatype ItemSpawner = ItemSpawner(items: seq<Item>)

  /** `selectedProcess?: string`: `None` is an absent field. */
  datatype ProcessSelector = ProcessSelector(selectedProcess: Option<string>)

  datatype UserProfile = UserProfile(
    modSettings: BackendModSettings,
    processSelector: ProcessSelector,
    name: string,
    itemSpawner: ItemSpawner)

  /** `lastUpdated` is a timestamp in nanoseconds. */
  datatype AvailableProcesses = AvailableProcesses(lastUpdated: int, processes: seq<string>)
}
