/** The first-run dialog: a non-blank name, trimmed, and a fresh profile
    record with everything empty and every switch off. The record uses the
    field names the dialog writes (`flyEnabled`, `prefabSpawner`, ...), which
    are not the ones the backend interface declares. */
module ProfileSetupDialog {
  import opened Wrappers
  import opened Text
  import opened Backend
  import ModSettings

  datatype DraftItemSpawner = DraftItemSpawner(items: seq<Item>, spawnHistory: seq<string>)

  datatype DraftPrefabSpawner = DraftPrefabSpawner(prefabs: seq<string>, spawnHistory: seq<string>)

  datatype DraftModSettings = DraftModSettings(
    flyEnabled: bool,
    superSpeedEnabled: bool,
    superSpeedMultiplier: real,
    superJumpEnabled: bool,
    superJumpMultiplier: real,
    disableMonsters: bool)

  /** The object `handleSubmit` passes to the save. */
  datatype ProfileDraft = ProfileDraft(
    name: string,
    itemSpawner: DraftItemSpawner,
    prefabSpawner: DraftPrefabSpawner,
    modSettings: DraftModSettings,
    processSelector: ProcessSelector)

  /** The record for a new profile named `name`. */
  function InitialProfile(name: string): (d: ProfileDraft)
    ensures d.name == name
    ensures d.itemSpawner.items == [] && d.itemSpawner.spawnHistory == []
    ensures d.prefabSpawner.prefabs == [] && d.prefabSpawner.spawnHistory == []
    ensures !d.modSettings.flyEnabled && !d.modSettings.superSpeedEnabled
      && !d.modSettings.superJumpEnabled && !d.modSettings.disableMonsters
    ensures d.modSettings.superSpeedMultiplier == 1.0 && d.modSettings.superJumpMultiplier == 1.0
    ensures d.processSelector.selectedProcess.None?
  {
    ProfileDraft(
      name,
      DraftItemSpawner([], []),
      DraftPrefabSpawner([], []),
      DraftModSettings(false, false, 1.0, false, 1.0, false),
      ProcessSelector(None))
  }

  /** The new profile's switches and multipliers are the menu's defaults. */
  lemma InitialAgreesWithDefaults(name: string)
    ensures var m := InitialProfile(name).modSettings;
      m.flyEnabled == ModSettings.Default.fly && m.superSpeedEnabled == ModSettings.Default.superSpeed
      && m.superSpeedMultiplier == ModSettings.Default.speedMultiplier
      && m.superJumpEnabled == ModSettings.Default.superJump
      && m.superJumpMultiplier == ModSettings.Default.jumpMultiplier
      && m.disableMonsters == ModSettings.Default.disableMonsters
  {
  }

  /** `handleSubmit`: nothing is saved for a blank name; otherwise the new
      profile under the trimmed name. */
  function HandleSubmit(name: string): (r: Option<ProfileDraft>)
    ensures r.None? <==> IsBlank(name)
    ensures r.Some? ==> r.value == InitialProfile(Trim(name))
    ensures r.Some? ==> r.value.name != "" && IsTrimmed(r.value.name)
  {
    match NonBlankTrimmed(name)
    case None => None
    case Some(trimmed) => Some(InitialProfile(trimmed))
  }

  /** Surrounding whitespace does not change the profile created. */
  lemma {:induction false} SubmitIgnoresSurroundingSpace(name: string)
    requires !IsBlank(name)
    ensures HandleSubmit(Trim(name)) == HandleSubmit(name)
  {
    TrimIdempotent(name);
    assert !IsBlank(Trim(name));
  }

  /** `isPending || !name.trim()`: an enabled button always submits. */
  function SubmitDisabled(isPending: bool, name: string): (disabled: bool)
    ensures disabled <==> isPending || HandleSubmit(name).None?
  {
    isPending || IsBlank(name)
  }
}
