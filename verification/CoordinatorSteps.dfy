/**
 The execution coordinator of services/execution_coordinator.py as a state
 machine. asyncio switches tasks only at awaits that suspend, so each function
 below is what one task does between two such awaits.

 A run is identified by its run id. The coordinator's dictionaries, queues and
 sets are the fields of `State`; `History` only remembers what happened and no
 step reads it.
 */
module CoordinatorSteps {
  import opened Wrappers
  import opened Execution
  import opened WorkspaceLifecycle

  // ---- state ----------------------------------------------------------

  /** What the coordinator is given and cannot change. */
  datatype Config = Config(
    policy: Request -> Selection, backends: set<string>, factory: Factory, adHocId: Factory, maxCompleted: nat)

  datatype Entry = Entry(run: RunId, request: Request)

  /** A worker is about to look at its queue, or suspended on one run's execution task. */
  datatype Worker = Ready | Awaiting(run: RunId)

  /** A future still in the dictionary; it is `Abandoned` when its waiter was cancelled. */
  datatype Future = Pending | Abandoned

  /** An execution task: not begun, inside its first or second backend call, or done. */
  datatype Phase =
    | Scheduled
    | FirstCall
    | SecondCall(retryId: string)
    | Finished(result: Result)
    | Unwound

  /** `seen` remembers the observable session state at the time the task's id was resolved. */
  datatype ExecTask = ExecTask(
    request: Request, backend: string, key: string, sessionId: string, phase: Phase,
    cancelRequested: bool, seen: SessionState)

  predicate Done(task: ExecTask) {
    task.phase.Finished? || task.phase.Unwound?
  }

  /** What became of a queue entry: still waiting, or how the worker treated it when it came up. */
  datatype Place = Waiting | Skipped | Dropped | Rejected | Started

  datatype Pop = Pop(entry: Entry, place: Place)

  /** Where a submitted run stands in its group's submission order. */
  datatype Known = Known(request: Request, index: nat)

  datatype History = History(
    submitted: map<string, seq<Entry>>,
    popped: map<string, seq<Pop>>,
    known: map<RunId, Known>,
    terminals: seq<Result>,
    finishedAt: map<RunId, nat>,
    delivered: map<RunId, Result>,
    abandoned: set<RunId>,
    calls: map<RunId, seq<string>>)

  datatype State = State(
    queues: map<string, seq<Entry>>,
    workers: map<string, Worker>,
    futures: map<RunId, Future>,
    requests: map<RunId, Request>,
    statuses: map<RunId, Status>,
    runningBackends: map<RunId, string>,
    tasks: map<RunId, ExecTask>,
    sessionIds: map<RunId, string>,
    cancelled: set<RunId>,
    results: map<RunId, Result>,
    order: seq<RunId>,
    snapshots: map<RunId, Snapshot>,
    store: Store,
    adHocDraws: nat,
    past: History)

  const INITIAL := State(map[], map[], map[], map[], map[], map[], map[], map[], {}, map[], [], map[],
                         Store(map[], 0), 0,
                         History(map[], map[], map[], [], map[], map[], {}, map[]))

  function At<K, V>(m: map<K, seq<V>>, k: K): seq<V> {
    if k in m then m[k] else []
  }

  // ---- small pieces ---------------------------------------------------

  function KeyOf(request: Request): string {
    BuildSlotWorkspaceKey(request.group, request.slot)
  }

  datatype Resolved = Resolved(sessionId: string, store: Store, adHocDraws: nat)

  /** `_resolve_session_id`; `_peek_session_id` is the same call with the request's own flag. */
  function Resolve(cfg: Config, store: Store, adHocDraws: nat, request: Request, backend: string, freshSession: bool)
    : Resolved
  {
    var key := KeyOf(request);
    if backend == OPENAI then
      var preview := PreviewSessionId(cfg.factory, store, key, backend, freshSession);
      Resolved(preview.sessionId, preview.store, adHocDraws)
    else if freshSession then
      Resolved(cfg.adHocId(key, adHocDraws), store, adHocDraws + 1)
    else
      Resolved(key, store, adHocDraws)
  }

  function Peek(cfg: Config, s: State, request: Request, backend: string): Resolved {
    Resolve(cfg, s.store, s.adHocDraws, request, backend, request.freshSession)
  }

  function SafeSelect(cfg: Config, request: Request): string {
    match cfg.policy(request)
    case Selected(backend) => backend
    case Raised(_) => "unknown"
  }

  function PlainResult(run: RunId, request: Request, backend: string, sessionId: string, status: Status,
                       error: Option<string>): Result {
    Result(run, status, request.group, backend, sessionId, request.slot, None, error, None)
  }

  // ---- submit ---------------------------------------------------------

  function EnsureWorker(workers: map<string, Worker>, group: string): map<string, Worker> {
    if group in workers then workers else workers[group := Ready]
  }

  function LogSubmission(past: History, run: RunId, request: Request): History {
    var group := request.group;
    past.(submitted := past.submitted[group := At(past.submitted, group) + [Entry(run, request)]],
          known := past.known[run := Known(request, |At(past.submitted, group)|)])
  }

  function Submit(s: State, run: RunId, request: Request): State {
    var group := request.group;
    s.(queues := s.queues[group := At(s.queues, group) + [Entry(run, request)]],
       workers := EnsureWorker(s.workers, group),
       futures := s.futures[run := Pending],
       requests := s.requests[run := request],
       statuses := s.statuses[run := Queued],
       snapshots := s.snapshots[run := NewSnapshot(request)],
       past := LogSubmission(s.past, run, request))
  }

  // ---- terminal results and the completed cache -----------------------

  function MarkTerminal(snapshots: map<RunId, Snapshot>, result: Result): map<RunId, Snapshot> {
    if result.run !in snapshots then snapshots else
      snapshots[result.run := snapshots[result.run].(
        status := result.status, backend := Some(result.backend), sessionId := Some(result.sessionId),
        slot := result.slot, finalOutput := result.finalOutput, error := result.error,
        timeoutMs := result.timeoutMs)]
  }

  /** The four fields that eviction trims together. */
  datatype Cache = Cache(
    order: seq<RunId>, results: map<RunId, Result>, statuses: map<RunId, Status>, snapshots: map<RunId, Snapshot>)

  function EvictStale(max: nat, c: Cache): Cache
    decreases |c.order|
  {
    if |c.order| <= max then c else
      var stale := c.order[0];
      EvictStale(max, Cache(c.order[1..], c.results - {stale}, c.statuses - {stale}, c.snapshots - {stale}))
  }

  function Record(s: State, result: Result): Cache {
    Cache(s.order + [result.run], s.results[result.run := result], s.statuses[result.run := result.status],
          MarkTerminal(s.snapshots, result))
  }

  function LogTerminal(past: History, result: Result, delivering: bool): History {
    past.(terminals := past.terminals + [result],
          finishedAt := past.finishedAt[result.run := |past.terminals|],
          delivered := if delivering then past.delivered[result.run := result] else past.delivered)
  }

  /** `_store_terminal_result`: record, evict, then resolve the future and forget the request. */
  function StoreTerminal(max: nat, s: State, result: Result): State {
    var kept := EvictStale(max, Record(s, result));
    var pending := result.run in s.futures && s.futures[result.run].Pending?;
    s.(order := kept.order, results := kept.results, statuses := kept.statuses, snapshots := kept.snapshots,
       futures := s.futures - {result.run},
       requests := s.requests - {result.run},
       past := LogTerminal(s.past, result, pending))
  }

  // ---- one turn of a group worker -------------------------------------

  function LogPop(s: State, entry: Entry, group: string, place: Place): State
    requires At(s.queues, group) != []
  {
    s.(queues := s.queues[group := At(s.queues, group)[1..]],
       past := s.past.(popped := s.past.popped[group := At(s.past.popped, group) + [Pop(entry, place)]]))
  }

  function RejectEntry(cfg: Config, s: State, entry: Entry, backend: string, slot: string, error: string): State {
    var peek := Peek(cfg, s, entry.request, backend);
    StoreTerminal(cfg.maxCompleted, s.(store := peek.store, adHocDraws := peek.adHocDraws),
                  PlainResult(entry.run, entry.request, backend, peek.sessionId, Failed, Some(error)).(slot := slot))
  }

  function MarkRunning(snapshots: map<RunId, Snapshot>, run: RunId, backend: string, sessionId: string)
    : map<RunId, Snapshot>
  {
    if run !in snapshots then snapshots else
      snapshots[run := snapshots[run].(status := Running, backend := Some(backend), sessionId := Some(sessionId))]
  }

  function NewExecTask(request: Request, backend: string, sessionId: string, store: Store): ExecTask {
    ExecTask(request, backend, KeyOf(request), sessionId, Scheduled, false, GetState(store, KeyOf(request)))
  }

  function StartEntry(cfg: Config, s: State, entry: Entry, backend: string): State {
    var request := entry.request;
    var own := Peek(cfg, s, request, backend);
    s.(store := own.store, adHocDraws := own.adHocDraws,
       sessionIds := s.sessionIds[entry.run := own.sessionId],
       statuses := s.statuses[entry.run := Running],
       snapshots := MarkRunning(s.snapshots, entry.run, backend, own.sessionId),
       runningBackends := s.runningBackends[entry.run := backend],
       tasks := s.tasks[entry.run := NewExecTask(request, backend, own.sessionId, own.store)],
       workers := s.workers[request.group := Awaiting(entry.run)])
  }

  /** How the worker treats the entry at the head of its queue. */
  function PlaceFor(cfg: Config, s: State, entry: Entry): Place {
    if entry.run !in s.futures then Skipped
    else if s.futures[entry.run].Abandoned? then Dropped
    else match cfg.policy(entry.request)
      case Raised(_) => Rejected
      case Selected(backend) => if backend in cfg.backends then Started else Rejected
  }

  /** One iteration of the worker loop: pop the head and skip, reject or start it. */
  function PopHead(cfg: Config, s: State, group: string): State
    requires At(s.queues, group) != []
  {
    var entry := At(s.queues, group)[0];
    var place := PlaceFor(cfg, s, entry);
    var t := LogPop(s, entry, group, place);
    if place == Skipped || place == Dropped then t
    else match cfg.policy(entry.request)
      case Raised(message) => RejectEntry(cfg, t, entry, "unknown", entry.request.slot, message)
      case Selected(backend) =>
        if backend in cfg.backends then StartEntry(cfg, t, entry, backend)
        else RejectEntry(cfg, t, entry, backend, "main", "unknown execution backend: " + backend)
  }

  function RetireWorker(s: State, group: string): State {
    s.(workers := s.workers - {group})
  }

  /** The worker loop until it suspends on an execution task or finds its queue empty. */
  function Turn(cfg: Config, s: State, group: string): State
    decreases |At(s.queues, group)|
  {
    if At(s.queues, group) == [] then RetireWorker(s, group)
    else
      var t := PopHead(cfg, s, group);
      PopHeadShortens(cfg, s, group);
      if group in t.workers && t.workers[group].Awaiting? then t else Turn(cfg, t, group)
  }

  lemma RejectKeepsQueues(cfg: Config, s: State, entry: Entry, backend: string, slot: string, error: string)
    ensures RejectEntry(cfg, s, entry, backend, slot, error).queues == s.queues
    ensures RejectEntry(cfg, s, entry, backend, slot, error).workers == s.workers
  {
  }

  lemma PopHeadShortens(cfg: Config, s: State, group: string)
    requires At(s.queues, group) != []
    ensures At(PopHead(cfg, s, group).queues, group) == At(s.queues, group)[1..]
  {
    var entry := At(s.queues, group)[0];
    var place := PlaceFor(cfg, s, entry);
    var t := LogPop(s, entry, group, place);
    assert At(t.queues, group) == At(s.queues, group)[1..];
    if place != Skipped && place != Dropped {
      match cfg.policy(entry.request)
      case Raised(message) => RejectKeepsQueues(cfg, t, entry, "unknown", entry.request.slot, message);
      case Selected(backend) =>
        if backend in cfg.backends {
          assert StartEntry(cfg, t, entry, backend).queues == t.queues;
        } else {
          RejectKeepsQueues(cfg, t, entry, backend, "main", "unknown execution backend: " + backend);
        }
    }
  }

  // ---- the execution task ---------------------------------------------

  /** How one backend call can end. `Full` is a backend that builds the result itself. */
  datatype Outcome =
    | Dict(status: Status, finalOutput: Option<string>, error: Option<string>, timeoutMs: Option<int>)
    | Full(result: Result)
    | TimeoutRaised
    | RuntimeRaised(message: string, resumeFailed: bool)
    | OtherRaised(message: string)

  /** Backends return well-formed outcomes: a terminal status, reported for the run they were given. */
  predicate WellFormed(run: RunId, outcome: Outcome) {
    match outcome
    case Dict(status, _, _, _) => IsTerminal(status)
    case Full(result) => IsTerminal(result.status) && result.run == run
    case _ => true
  }

  /** `_run_backend_with_timeout` for every outcome but a `RuntimeError`, which it re-raises. */
  function CallResult(run: RunId, task: ExecTask, sessionId: string, outcome: Outcome): Result
    requires !outcome.RuntimeRaised?
  {
    var blank := PlainResult(run, task.request, task.backend, sessionId, Failed, None);
    match outcome
    case Dict(status, finalOutput, error, timeoutMs) =>
      blank.(status := status, finalOutput := finalOutput, error := error, timeoutMs := timeoutMs)
    case Full(result) => result
    case TimeoutRaised => blank.(status := TimedOut, timeoutMs := task.request.timeoutMs)
    case OtherRaised(message) => blank.(error := Some(message))
  }

  function LogCall(past: History, run: RunId, sessionId: string): History {
    past.(calls := past.calls[run := At(past.calls, run) + [sessionId]])
  }

  function SetPhase(s: State, run: RunId, phase: Phase): State
    requires run in s.tasks
  {
    s.(tasks := s.tasks[run := s.tasks[run].(phase := phase)])
  }

  /** The event loop first runs the task: it enters its first backend call. */
  function BeginTask(s: State, run: RunId): State
    requires run in s.tasks
  {
    s.(tasks := s.tasks[run := s.tasks[run].(phase := FirstCall)],
       past := LogCall(s.past, run, s.tasks[run].sessionId))
  }

  /** A requested cancellation reaches the task at its suspension point. */
  function UnwindTask(s: State, run: RunId): State
    requires run in s.tasks
  {
    SetPhase(s, run, Unwound)
  }

  function MarkRecoveryAttempt(snapshots: map<RunId, Snapshot>, run: RunId, reason: string): map<RunId, Snapshot> {
    if run !in snapshots then snapshots else
      snapshots[run := snapshots[run].(
        recoveryAttempted := true, recoveryReason := Some(reason), recoverySucceeded := None)]
  }

  function MarkRecoveryResult(snapshots: map<RunId, Snapshot>, run: RunId, succeeded: bool): map<RunId, Snapshot> {
    if run !in snapshots then snapshots else
      snapshots[run := snapshots[run].(recoverySucceeded := Some(succeeded))]
  }

  /** A completed openai run commits its session. */
  function CommitIfCompleted(store: Store, task: ExecTask, result: Result): Store {
    if task.backend == OPENAI && result.status == Completed
    then CommitSuccess(store, task.key, task.backend, result.sessionId)
    else store
  }

  /** The end of the lifecycle: commit if that is due, then the task is done. */
  function ConcludeTask(s: State, run: RunId, result: Result): State
    requires run in s.tasks
  {
    s.(store := CommitIfCompleted(s.store, s.tasks[run], result),
       tasks := s.tasks[run := s.tasks[run].(phase := Finished(result))])
  }

  predicate ShouldRetry(task: ExecTask, resumeFailed: bool) {
    resumeFailed && !task.request.freshSession && task.backend == OPENAI
  }

  /** The session-resume recovery: invalidate, draw another id, call the backend again. */
  function RetryTask(cfg: Config, s: State, run: RunId, message: string): State
    requires run in s.tasks
  {
    var task := s.tasks[run];
    var retry := Resolve(cfg, Invalidate(s.store, task.key), s.adHocDraws, task.request, task.backend, true);
    s.(store := retry.store, adHocDraws := retry.adHocDraws,
       snapshots := MarkRecoveryAttempt(s.snapshots, run, message),
       sessionIds := s.sessionIds[run := retry.sessionId],
       tasks := s.tasks[run := task.(phase := SecondCall(retry.sessionId))],
       past := LogCall(s.past, run, retry.sessionId))
  }

  predicate InCall(task: ExecTask) {
    task.phase.FirstCall? || task.phase.SecondCall?
  }

  function Failure(run: RunId, task: ExecTask, sessionId: string, message: string): Phase {
    Finished(PlainResult(run, task.request, task.backend, sessionId, Failed, Some(message)))
  }

  function EndFirstCall(cfg: Config, s: State, run: RunId, outcome: Outcome): State
    requires run in s.tasks
  {
    var task := s.tasks[run];
    if !outcome.RuntimeRaised? then ConcludeTask(s, run, CallResult(run, task, task.sessionId, outcome))
    else if ShouldRetry(task, outcome.resumeFailed) then RetryTask(cfg, s, run, outcome.message)
    else SetPhase(s, run, Failure(run, task, task.sessionId, outcome.message))
  }

  function EndSecondCall(s: State, run: RunId, retryId: string, outcome: Outcome): State
    requires run in s.tasks
  {
    var task := s.tasks[run];
    var marked := s.(snapshots := MarkRecoveryResult(s.snapshots, run, !outcome.RuntimeRaised?));
    if !outcome.RuntimeRaised? then ConcludeTask(marked, run, CallResult(run, task, retryId, outcome))
    else SetPhase(marked, run, Failure(run, task, retryId, outcome.message))
  }

  /** The backend call the task is in comes back with an outcome. */
  function EndCall(cfg: Config, s: State, run: RunId, outcome: Outcome): State
    requires Enabled(s, CallEnd(run, outcome))
  {
    if s.tasks[run].phase.FirstCall? then EndFirstCall(cfg, s, run, outcome)
    else EndSecondCall(s, run, s.tasks[run].phase.retryId, outcome)
  }

  // ---- the worker resumes ---------------------------------------------

  /** The `finally` block: the run is no longer running, and a note that it was cancelled is dropped. */
  function Release(s: State, run: RunId, group: string): State {
    s.(runningBackends := s.runningBackends - {run}, tasks := s.tasks - {run}, sessionIds := s.sessionIds - {run},
       workers := s.workers[group := Ready], cancelled := s.cancelled - {run})
  }

  /** What the worker does with a finished execution task before it looks at its queue again. */
  function FinishRun(cfg: Config, s: State, group: string): State
    requires Enabled(s, WorkerResume(group))
  {
    var run := s.workers[group].run;
    var task := s.tasks[run];
    if run !in s.cancelled && task.phase.Finished?
    then StoreTerminal(cfg.maxCompleted, Release(s, run, group), task.phase.result)
    else Release(s, run, group)
  }

  // ---- cancel and abandoned waiters -----------------------------------

  /** The state after a peek: a touched key and perhaps a drawn id, nothing a caller can observe. */
  function AfterPeek(cfg: Config, s: State, request: Request, backend: string): State {
    var peek := Peek(cfg, s, request, backend);
    s.(store := peek.store, adHocDraws := peek.adHocDraws)
  }

  function CancelQueued(cfg: Config, s: State, run: RunId): State
    requires run in s.requests
  {
    var request := s.requests[run];
    var backend := SafeSelect(cfg, request);
    StoreTerminal(cfg.maxCompleted, AfterPeek(cfg, s, request, backend),
                  PlainResult(run, request, backend, Peek(cfg, s, request, backend).sessionId, Cancelled, None))
  }

  function RequestCancel(task: ExecTask): ExecTask {
    if Done(task) then task else task.(cancelRequested := true)
  }

  /** The run is remembered as cancelled and its task, unless already done, is told to stop. */
  function MarkForCancel(s: State, run: RunId): State
    requires run in s.tasks
  {
    s.(cancelled := s.cancelled + {run}, statuses := s.statuses[run := Cancelled],
       tasks := s.tasks[run := RequestCancel(s.tasks[run])])
  }

  /** The run's own session id is reported, but the peek for the default happens all the same. */
  function CancelResult(cfg: Config, s: State, run: RunId): Result
    requires run in s.requests
  {
    var request := s.requests[run];
    var backend := SafeSelect(cfg, request);
    var sessionId := if run in s.sessionIds then s.sessionIds[run] else Peek(cfg, s, request, backend).sessionId;
    PlainResult(run, request, backend, sessionId, Cancelled, None)
  }

  function CancelRunning(cfg: Config, s: State, run: RunId): State
    requires run in s.requests && run in s.tasks
  {
    var peeked := AfterPeek(cfg, s, s.requests[run], SafeSelect(cfg, s.requests[run]));
    StoreTerminal(cfg.maxCompleted, MarkForCancel(peeked, run), CancelResult(cfg, s, run))
  }

  predicate CanCancel(s: State, run: RunId) {
    && run in s.statuses && run in s.requests
    && (s.statuses[run] == Queued || (s.statuses[run] == Running && run in s.runningBackends && run in s.tasks))
  }

  function Cancel(cfg: Config, s: State, run: RunId): State {
    if !CanCancel(s, run) then s
    else if s.statuses[run] == Queued then CancelQueued(cfg, s, run)
    else CancelRunning(cfg, s, run)
  }

  /** Cancelling a task that awaits `wait_for_run` cancels the run's future, which stays in the dictionary. */
  function Abandon(s: State, run: RunId): State {
    s.(futures := s.futures[run := Abandoned],
       past := s.past.(abandoned := s.past.abandoned + {run}))
  }

  // ---- all steps ------------------------------------------------------

  datatype Event =
    | SubmitEvent(run: RunId, request: Request)
    | WorkerTurn(group: string)
    | TaskBegin(run: RunId)
    | CallEnd(run: RunId, outcome: Outcome)
    | TaskUnwind(run: RunId)
    | WorkerResume(group: string)
    | CancelEvent(run: RunId)
    | WaiterCancelled(run: RunId)

  predicate Enabled(s: State, e: Event) {
    match e
    case SubmitEvent(run, request) => run !in s.past.known
    case WorkerTurn(group) => group in s.workers && s.workers[group].Ready?
    case TaskBegin(run) => run in s.tasks && s.tasks[run].phase.Scheduled? && !s.tasks[run].cancelRequested
    case CallEnd(run, outcome) => run in s.tasks && InCall(s.tasks[run]) && WellFormed(run, outcome)
    case TaskUnwind(run) => run in s.tasks && !Done(s.tasks[run]) && s.tasks[run].cancelRequested
    case WorkerResume(group) =>
      && group in s.workers && s.workers[group].Awaiting?
      && s.workers[group].run in s.tasks && Done(s.tasks[s.workers[group].run])
    case CancelEvent(run) => true
    case WaiterCancelled(run) => run in s.futures && s.futures[run].Pending?
  }

  function Apply(cfg: Config, s: State, e: Event): State
    requires Enabled(s, e)
  {
    match e
    case SubmitEvent(run, request) => Submit(s, run, request)
    case WorkerTurn(group) => Turn(cfg, s, group)
    case TaskBegin(run) => BeginTask(s, run)
    case CallEnd(run, outcome) => EndCall(cfg, s, run, outcome)
    case TaskUnwind(run) => UnwindTask(s, run)
    case WorkerResume(group) => Turn(cfg, FinishRun(cfg, s, group), group)
    case CancelEvent(run) => Cancel(cfg, s, run)
    case WaiterCancelled(run) => Abandon(s, run)
  }
}
