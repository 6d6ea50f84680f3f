/**
 Requests, results and snapshots of services/execution_coordinator.py, and the
 backend selection table of services/execution_policy.py.
 */
module Execution {
  import opened Wrappers

  /** A run id is only ever compared with other run ids. */
  type RunId(==, !new)

  datatype Status = Queued | Running | Completed | Failed | Cancelled | TimedOut

  predicate IsTerminal(status: Status) {
    status != Queued && status != Running
  }

  datatype Request = Request(
    group: string, chatJid: string, userId: string, prompt: string, source: string, slot: string,
    mode: Option<string>, timeoutMs: Option<int>, freshSession: bool)

  datatype Result = Result(
    run: RunId, status: Status, group: string, backend: string, sessionId: string, slot: string,
    finalOutput: Option<string>, error: Option<string>, timeoutMs: Option<int>)

  /** What `get_run_snapshot` shows of a run; the submitted request stands for the fields copied from it. */
  datatype Snapshot = Snapshot(
    request: Request, status: Status, slot: string, backend: Option<string>, sessionId: Option<string>,
    finalOutput: Option<string>, error: Option<string>, timeoutMs: Option<int>,
    recoveryAttempted: bool, recoveryReason: Option<string>, recoverySucceeded: Option<bool>)

  function NewSnapshot(request: Request): Snapshot {
    Snapshot(request, Queued, request.slot, None, None, None, None, None, false, None, None)
  }

  /** A policy either names a backend or raises. */
  datatype Selection = Selected(backend: string) | Raised(message: string)

  const OPENAI := "openai_runtime"

  const MODE_TO_BACKEND: map<string, string> := map[
    "openai" := OPENAI, "host" := "host_process", "container" := "docker_container"]

  function SelectBackend(request: Request): Selection {
    if request.mode.None? then Selected(OPENAI)
    else if request.mode.value in MODE_TO_BACKEND then Selected(MODE_TO_BACKEND[request.mode.value])
    else Raised("unsupported execution mode: " + request.mode.value)
  }

  /** The whole table: which backend each mode names, and that every other mode raises with its own name. */
  lemma SelectBackendTable(request: Request)
    ensures SelectBackend(request).Raised?
            <==> request.mode.Some? && request.mode.value !in {"openai", "host", "container"}
    ensures SelectBackend(request) == Selected("openai_runtime")
            <==> request.mode == None || request.mode == Some("openai")
    ensures SelectBackend(request) == Selected("host_process") <==> request.mode == Some("host")
    ensures SelectBackend(request) == Selected("docker_container") <==> request.mode == Some("container")
    ensures SelectBackend(request).Raised? ==>
              SelectBackend(request).message == "unsupported execution mode: " + request.mode.value
  {
  }
}
