/** The process selector panel's derived values: the process list, the
    last-updated time, whether the saved selection has disappeared, which of
    the three selection panels shows, and the count label. */
module ProcessSelectorPanel {
  import opened Wrappers
  import opened Backend
  import ProcessSelectorHook

  /** `availableProcesses?.processes || []`. */
  function Processes(data: Option<AvailableProcesses>): (r: seq<string>)
    ensures data.None? ==> r == []
    ensures data.Some? ==> r == data.value.processes
  {
    if data.Some? then data.value.processes else []
  }

  /** The millisecond time `new Date(Number(lastUpdated) / 1000000)` stands
      for: the nanoseconds divided by a million, truncated toward zero as
      `Date` does; absent or zero shows "Never". */
  function LastUpdatedMillis(data: Option<AvailableProcesses>): (r: Option<int>)
    ensures r.None? <==> data.None? || data.value.lastUpdated == 0
    ensures r.Some? && data.value.lastUpdated > 0 ==>
      0 <= r.value * 1000000 <= data.value.lastUpdated < (r.value + 1) * 1000000
    ensures r.Some? && data.value.lastUpdated < 0 ==>
      (r.value - 1) * 1000000 < data.value.lastUpdated <= r.value * 1000000 <= 0
  {
    if data.None? || data.value.lastUpdated == 0 then None
    else if data.value.lastUpdated > 0 then Some(data.value.lastUpdated / 1000000)
    else Some(-((-data.value.lastUpdated) / 1000000))
  }

  /** `selectedProcess && !processes.includes(selectedProcess)`. */
  function IsSelectedProcessMissing(selected: Option<string>, processes: seq<string>): (missing: bool)
    ensures missing ==> selected.Some? && selected.value != ""
    ensures missing ==> forall i :: 0 <= i < |processes| ==> processes[i] != selected.value
    ensures selected.Some? && selected.value != "" && (forall i :: 0 <= i < |processes| ==> processes[i] != selected.value) ==> missing
  {
    selected.Some? && selected.value != "" && selected.value !in processes
  }

  datatype SelectionStatus = Missing(name: string) | Active(name: string) | NoneSelected

  /** The panel below the select: the missing warning, else the active
      process, else "No process selected". */
  function Status(selected: Option<string>, processes: seq<string>): (r: SelectionStatus)
    ensures r.Missing? <==> IsSelectedProcessMissing(selected, processes)
    ensures r.Active? <==> selected.Some? && selected.value != "" && selected.value in processes
    ensures r.NoneSelected? <==> selected.None? || selected.value == ""
    ensures !r.NoneSelected? ==> r.name == selected.value
  {
    if IsSelectedProcessMissing(selected, processes) then Missing(selected.value)
    else if selected.Some? && selected.value != "" then Active(selected.value)
    else NoneSelected
  }

  /** Without a process list every saved selection is missing, and a
      selection that is listed is active. */
  lemma StatusOfListedSelection(name: string, processes: seq<string>)
    requires name != ""
    ensures processes == [] ==> Status(Some(name), processes) == Missing(name)
    ensures name in processes ==> Status(Some(name), processes) == Active(name)
  {
  }

  /** The noun in "N process(es) available". */
  function CountLabel(n: nat): (noun: string)
    ensures noun == "process" <==> n == 1
    ensures noun == "processes" <==> n != 1
  {
    if n == 1 then "process" else "processes"
  }

  /** The count badge shows only for a non-empty list. */
  function ShowsCountBadge(processes: seq<string>): (shown: bool)
    ensures shown <==> processes != []
  {
    |processes| > 0
  }

  /** `selectedProcess || ''`: the select's value. */
  function SelectValue(selected: Option<string>): (v: string)
    ensures v == "" <==> selected.None? || selected.value == ""
    ensures v != "" ==> Some(v) == selected
  {
    if selected.Some? then selected.value else ""
  }

  /** `value || null`: what choosing a value passes to `selectProcess`. */
  function ChosenSelection(value: string): (r: Option<string>)
    ensures r.None? <==> value == ""
    ensures r.Some? ==> r.value == value
  {
    if value == "" then None else Some(value)
  }

  /** Choosing the empty entry stores no selection, and choosing a listed
      process reads back as that process. */
  lemma ChoiceReadsBack(value: string)
    ensures ProcessSelectorHook.SelectorFor(ChosenSelection("")).selectedProcess.None?
    ensures ProcessSelectorHook.SelectedProcess(Some(ProcessSelectorHook.SelectorFor(ChosenSelection(value)))) == ChosenSelection(value)
  {
  }

  /** The select shows the value the hook read, and choosing it again selects
      the same thing. */
  lemma SelectValueRoundTrip(data: Option<ProcessSelector>)
    ensures ChosenSelection(SelectValue(ProcessSelectorHook.SelectedProcess(data))) == ProcessSelectorHook.SelectedProcess(data)
  {
  }
}
