/** `useProcessSelector`: the selected process as the panel reads it, and the
    selector record it writes. An empty name and an absent one are the same
    thing in both directions. */
module ProcessSelectorHook {
  import opened Wrappers
  import opened Backend
  import Queries

  /** `processSelector?.selectedProcess || null`. */
  function SelectedProcess(data: Option<ProcessSelector>): (r: Option<string>)
    ensures r.Some? <==> data.Some? && data.value.selectedProcess.Some? && data.value.selectedProcess.value != ""
    ensures r.Some? ==> r.value == data.value.selectedProcess.value
  {
    if data.Some? && data.value.selectedProcess.Some? && data.value.selectedProcess.value != "" then
      data.value.selectedProcess
    else
      None
  }

  /** `{ selectedProcess: processName || undefined }`. */
  function SelectorFor(processName: Option<string>): (p: ProcessSelector)
    ensures p.selectedProcess.Some? <==> processName.Some? && processName.value != ""
    ensures p.selectedProcess.Some? ==> p.selectedProcess.value == processName.value
  {
    if processName.Some? && processName.value != "" then ProcessSelector(processName) else ProcessSelector(None)
  }

  /** Once a selection is saved, reading it back gives the name when it is
      non-empty and no selection otherwise. */
  lemma SelectThenRead(processName: Option<string>)
    ensures SelectedProcess(Some(SelectorFor(processName))) ==
      if processName.Some? && processName.value != "" then processName else None
  {
  }

  /** Writing back what was read leaves a stored selector as it was, unless
      it held the empty name, which is written as no selection. */
  lemma ReadThenSelect(p: ProcessSelector)
    ensures p.selectedProcess != Some("") ==> SelectorFor(SelectedProcess(Some(p))) == p
    ensures p.selectedProcess == Some("") ==> SelectorFor(SelectedProcess(Some(p))) == ProcessSelector(None)
  {
  }

  /** `selectProcess`: sends the selector; a failure is reported (the result)
      and not rethrown. */
  method SelectProcess(client: Queries.Client, processName: Option<string>, remoteOk: bool) returns (reported: bool)
    requires client.Valid()
    modifies client
    ensures client.Valid()
    ensures reported <==> !(client.hasActor && remoteOk)
    ensures client.cached == old(client.cached)
    ensures client.hasActor ==> client.sent == old(client.sent) + [Queries.SetSelectorCall(SelectorFor(processName))]
    ensures !client.hasActor ==> client.sent == old(client.sent)
    ensures client.hasActor && remoteOk ==>
      client.stale == old(client.stale) + {Queries.ProcessSelectorKey, Queries.CurrentUserProfileKey} * client.cached
    ensures !(client.hasActor && remoteOk) ==> client.stale == old(client.stale)
  {
    var outcome := client.SetProcessSelector(SelectorFor(processName), remoteOk);
    reported := outcome.Fail?;
  }
}
