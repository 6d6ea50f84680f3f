/**
 The wrapper of services/task_service.py between the scheduler and an executor:
 it records one log for every execution that returns or raises, and lets the
 scheduler see only that it returned or raised. Scheduler, wrapper and log
 together form the state machine of this module.
 */
module TaskExecution {
  import opened Wrappers
  import opened Strings
  import opened TaskScheduling
  import opened TaskRuns
  import opened TaskLogs
  import Execution

  // ---- how an executor ends -------------------------------------------

  /** A value, one of the two kinds of exception the wrapper tells apart, or a cancellation, which is no `Exception`. */
  datatype ExecResult =
    | Value(text: Option<string>)
    | TimeoutError(message: string)
    | OtherError(message: string)
    | CancelledError

  /** `error or default`. */
  function OrElse(error: Option<string>, default: string): string {
    if error.Some? && error.value != "" then error.value else default
  }

  /** `_coerce_execution_result`. */
  function CoerceExecutionResult(result: Execution.Result): ExecResult {
    match result.status
    case Completed => Value(result.finalOutput)
    case TimedOut => TimeoutError(OrElse(result.error, "execution timed out"))
    case Cancelled => OtherError(OrElse(result.error, "cancelled"))
    case _ => OtherError(OrElse(result.error, "execution failed"))
  }

  datatype Attempt = Attempt(ref: nat, taskId: Text, runAt: int, durationMs: nat, result: ExecResult)

  /** What is to be logged for an attempt; nothing for a cancelled one. */
  function EntryFor(a: Attempt): Option<Entry> {
    match a.result
    case Value(text) => Some(Entry(a.taskId, a.runAt, a.durationMs, "success", text, None))
    case TimeoutError(message) => Some(Entry(a.taskId, a.runAt, a.durationMs, "timeout", None, Some(message)))
    case OtherError(message) => Some(Entry(a.taskId, a.runAt, a.durationMs, "error", None, Some(message)))
    case CancelledError => None
  }

  function OutcomeOf(result: ExecResult): Outcome {
    match result
    case Value(_) => Returned
    case TimeoutError(_) => Raised
    case OtherError(_) => Raised
    case CancelledError => Outcome.Cancelled
  }

  /** The wrapper's effect on the log. */
  function Logged(book: Book, a: Attempt): Book {
    match EntryFor(a)
    case Some(entry) => Record(book, entry)
    case None => book
  }

  /** The log an attempt leaves: what it returned, or the message it raised; none for a cancelled one. */
  function LogsFor(id: int, a: Attempt): (logs: seq<TaskRunLog>)
    ensures logs == match a.result
                    case CancelledError => []
                    case Value(text) =>
                      [TaskRunLog(id, a.taskId, a.runAt, a.durationMs, "success", text, None)]
                    case TimeoutError(message) =>
                      [TaskRunLog(id, a.taskId, a.runAt, a.durationMs, "timeout", None, Some(message))]
                    case OtherError(message) =>
                      [TaskRunLog(id, a.taskId, a.runAt, a.durationMs, "error", None, Some(message))]
  {
    match EntryFor(a)
    case Some(entry) => [LogFor(id, entry)]
    case None => []
  }

  // ---- the wrapper ----------------------------------------------------

  class TaskService {
    const taskLogService: TaskLogService

    constructor (taskLogService: TaskLogService)
      ensures this.taskLogService == taskLogService
    {
      this.taskLogService := taskLogService;
    }

    /**
     `_execute_task` once its executor has ended: each branch records and then
     returns, or raises the same exception again.
     */
    method ExecuteTask(attempt: Attempt) returns (outcome: Outcome)
      requires taskLogService.Valid()
      modifies taskLogService
      ensures taskLogService.Valid() && outcome == OutcomeOf(attempt.result)
      ensures taskLogService.Value() == Logged(old(taskLogService.Value()), attempt)
      ensures outcome == match attempt.result
                         case Value(_) => Returned
                         case CancelledError => Outcome.Cancelled
                         case _ => Raised
      ensures forall t :: LogsOf(taskLogService.logsByTaskId, t) ==
                LogsOf(old(taskLogService.logsByTaskId), t)
                + (if t == attempt.taskId then LogsFor(old(taskLogService.nextId), attempt) else [])
    {
      match attempt.result
      case TimeoutError(message) =>
        var _ := taskLogService.RecordLog(
          Entry(attempt.taskId, attempt.runAt, attempt.durationMs, "timeout", None, Some(message)));
        return Raised;
      case OtherError(message) =>
        var _ := taskLogService.RecordLog(
          Entry(attempt.taskId, attempt.runAt, attempt.durationMs, "error", None, Some(message)));
        return Raised;
      case CancelledError =>
        return Outcome.Cancelled;
      case Value(text) =>
        var _ := taskLogService.RecordLog(
          Entry(attempt.taskId, attempt.runAt, attempt.durationMs, "success", text, None));
        return Returned;
    }
  }

  /**
   What a scheduled run's result in the coordinator leads to: a success log and
   an advance exactly for a completed one.
   */
  lemma CoercedOutcome(result: Execution.Result, a: Attempt)
    requires a.result == CoerceExecutionResult(result)
    ensures OutcomeOf(a.result) == (if result.status == Execution.Completed then Returned else Raised)
    ensures EntryFor(a).Some?
    ensures EntryFor(a).value.status == (
              if result.status == Execution.Completed then "success"
              else if result.status == Execution.TimedOut then "timeout" else "error")
    ensures EntryFor(a).value.error.None? <==> result.status == Execution.Completed
    ensures EntryFor(a).value.error != Some("")
    ensures EntryFor(a).value.result == (if result.status == Execution.Completed then result.finalOutput else None)
    ensures result.status != Execution.Completed && result.error.Some? && result.error.value != "" ==>
              EntryFor(a).value.error == result.error
    ensures result.status != Execution.Completed && (result.error.None? || result.error.value == "") ==>
              EntryFor(a).value.error == Some(
                if result.status == Execution.TimedOut then "execution timed out"
                else if result.status == Execution.Cancelled then "cancelled" else "execution failed")
    ensures EntryFor(a).value.taskId == a.taskId && EntryFor(a).value.runAt == a.runAt
            && EntryFor(a).value.durationMs == a.durationMs
  {
  }

  // ---- scheduler, wrapper and log -------------------------------------

  /** `attempts` lists the executions that ended, in that order. */
  datatype Service = Service(sched: Sched, book: Book, attempts: seq<Attempt>)

  const INITIAL := Service(EMPTY, EMPTY_BOOK, [])

  datatype ServiceEvent =
    | Plain(event: Event)
    | ExecutorEnds(p: nat, durationMs: nat, result: ExecResult, now: int)

  ghost predicate Possible(s: Service, e: ServiceEvent) {
    match e
    case Plain(event) => Enabled(s.sched, event) && !event.TaskEnds?
    case ExecutorEnds(p, _, _, now) => Enabled(s.sched, TaskEnds(p, Returned, now))
  }

  function AttemptOf(s: Sched, p: nat, durationMs: nat, result: ExecResult): Attempt
    requires p in s.passes && s.passes[p].current.Some? && s.passes[p].current.value.ref < |s.heap|
  {
    var run := s.passes[p].current.value;
    Attempt(run.ref, s.heap[run.ref].id, run.runAt, durationMs, result)
  }

  /** The executor ends: the wrapper logs, and the scheduler goes on from what the wrapper returns or raises. */
  function EndAttempt(cron: CronNext, s: Service, p: nat, durationMs: nat, result: ExecResult, now: int): Service
    requires p in s.sched.passes && s.sched.passes[p].current.Some?
    requires s.sched.passes[p].current.value.ref < |s.sched.heap|
    requires var task := s.sched.heap[s.sched.passes[p].current.value.ref]; Valid(task) || task.kind.Once?
  {
    var attempt := AttemptOf(s.sched, p, durationMs, result);
    Service(EndTask(cron, s.sched, p, OutcomeOf(result), now), Logged(s.book, attempt), s.attempts + [attempt])
  }

  ghost predicate ServiceStep(cron: CronNext, s: Service, e: ServiceEvent, t: Service) {
    && Possible(s, e) && RefsOk(s.sched)
    && match e
       case Plain(event) => t == s.(sched := Apply(cron, s.sched, event))
       case ExecutorEnds(p, durationMs, result, now) =>
         && PassRefsOk(s.sched.passes[p], |s.sched.heap|)
         && t == EndAttempt(cron, s, p, durationMs, result, now)
  }

  ghost predicate IsServiceRun(cron: CronNext, states: seq<Service>, events: seq<ServiceEvent>) {
    && |states| == |events| + 1
    && states[0] == INITIAL
    && forall i {:trigger events[i]} | 0 <= i < |events| :: ServiceStep(cron, states[i], events[i], states[i + 1])
  }

  // ---- one log per attempt --------------------------------------------

  /** The entries due for the attempts, with ids counted through. */
  function DueLogs(attempts: seq<Attempt>): seq<TaskRunLog> {
    if attempts == [] then []
    else
      var rest, entry := DueLogs(attempts[..|attempts| - 1]), EntryFor(attempts[|attempts| - 1]);
      if entry.None? then rest else rest + [LogFor(|rest| + 1, entry.value)]
  }

  function Only(logs: seq<TaskRunLog>, taskId: Text): seq<TaskRunLog> {
    if logs == [] then []
    else
      var rest, last := Only(logs[..|logs| - 1], taskId), logs[|logs| - 1];
      if last.taskId == taskId then rest + [last] else rest
  }

  function SuccessIds(logs: seq<TaskRunLog>): seq<Text> {
    if logs == [] then []
    else
      var rest, last := SuccessIds(logs[..|logs| - 1]), logs[|logs| - 1];
      if last.status == "success" then rest + [last.taskId] else rest
  }

  function IdsOf(heap: seq<Task>, refs: seq<nat>): seq<Text> {
    if refs == [] then []
    else
      var rest, r := IdsOf(heap, refs[..|refs| - 1]), refs[|refs| - 1];
      rest + (if r < |heap| then [heap[r].id] else [])
  }

  function Ended(attempts: seq<Attempt>): nat {
    if attempts == [] then 0
    else Ended(attempts[..|attempts| - 1]) + (if attempts[|attempts| - 1].result.CancelledError? then 0 else 1)
  }

  ghost predicate Matches(book: Book, logs: seq<TaskRunLog>) {
    && BookOk(book) && book.nextId == |logs| + 1
    && forall t {:trigger LogsOf(book.logs, t)} :: LogsOf(book.logs, t) == Only(logs, t)
  }

  ghost predicate ServiceInv(s: Service) {
    && Inv(s.sched) && Matches(s.book, DueLogs(s.attempts))
    && s.sched.ended == |s.attempts|
    && SuccessIds(DueLogs(s.attempts)) == IdsOf(s.sched.heap, s.sched.marked)
  }

  lemma DueOne(attempts: seq<Attempt>, a: Attempt)
    ensures DueLogs(attempts + [a]) ==
              if EntryFor(a).None? then DueLogs(attempts)
              else DueLogs(attempts) + [LogFor(|DueLogs(attempts)| + 1, EntryFor(a).value)]
  {
    assert (attempts + [a])[..|attempts|] == attempts;
  }

  lemma OnlyOne(logs: seq<TaskRunLog>, log: TaskRunLog)
    ensures forall t :: Only(logs + [log], t) == Only(logs, t) + (if t == log.taskId then [log] else [])
    ensures SuccessIds(logs + [log]) == SuccessIds(logs) + (if log.status == "success" then [log.taskId] else [])
  {
    assert (logs + [log])[..|logs|] == logs;
  }

  lemma IdsOne(heap: seq<Task>, refs: seq<nat>, r: nat)
    requires r < |heap|
    ensures IdsOf(heap, refs + [r]) == IdsOf(heap, refs) + [heap[r].id]
  {
    assert (refs + [r])[..|refs|] == refs;
  }

  lemma {:induction false} IdsKept(heap: seq<Task>, later: seq<Task>, refs: seq<nat>)
    requires |heap| <= |later| && forall r :: 0 <= r < |heap| ==> later[r].id == heap[r].id
    requires forall i :: 0 <= i < |refs| ==> refs[i] < |heap|
    ensures IdsOf(later, refs) == IdsOf(heap, refs)
  {
    if refs != [] {
      IdsKept(heap, later, refs[..|refs| - 1]);
    }
  }

  /** Recording what is due keeps the book in step with the attempts. */
  lemma LoggedMatches(book: Book, attempts: seq<Attempt>, a: Attempt)
    requires Matches(book, DueLogs(attempts))
    ensures Matches(Logged(book, a), DueLogs(attempts + [a]))
  {
    DueOne(attempts, a);
    if EntryFor(a).Some? {
      var entry := EntryFor(a).value;
      RecordIsNew(book, entry);
      OnlyOne(DueLogs(attempts), LogFor(book.nextId, entry));
    }
  }

  /** A success log is due exactly when the scheduler advances the task. */
  lemma SuccessesMatch(cron: CronNext, s: Sched, p: nat, result: ExecResult, durationMs: nat, now: int,
                       attempts: seq<Attempt>)
    requires RefsOk(s) && CountsOk(s) && Enabled(s, TaskEnds(p, Returned, now)) && PassRefsOk(s.passes[p], |s.heap|)
    requires SuccessIds(DueLogs(attempts)) == IdsOf(s.heap, s.marked)
    ensures var t := EndTask(cron, s, p, OutcomeOf(result), now);
            SuccessIds(DueLogs(attempts + [AttemptOf(s, p, durationMs, result)])) == IdsOf(t.heap, t.marked)
  {
    var t, a := EndTask(cron, s, p, OutcomeOf(result), now), AttemptOf(s, p, durationMs, result);
    IdsKept(s.heap, t.heap, s.marked);
    IdsOne(t.heap, s.marked, a.ref);
    DueOne(attempts, a);
    if EntryFor(a).Some? {
      OnlyOne(DueLogs(attempts), LogFor(|DueLogs(attempts)| + 1, EntryFor(a).value));
    }
  }

  lemma AttemptInv(cron: CronNext, s: Service, p: nat, durationMs: nat, result: ExecResult, now: int)
    requires ServiceInv(s) && Enabled(s.sched, TaskEnds(p, Returned, now))
    requires PassRefsOk(s.sched.passes[p], |s.sched.heap|)
    ensures ServiceInv(EndAttempt(cron, s, p, durationMs, result, now))
  {
    StepInv(cron, s.sched, TaskEnds(p, OutcomeOf(result), now));
    LoggedMatches(s.book, s.attempts, AttemptOf(s.sched, p, durationMs, result));
    SuccessesMatch(cron, s.sched, p, result, durationMs, now, s.attempts);
  }

  lemma PlainInv(cron: CronNext, s: Service, e: Event)
    requires ServiceInv(s) && Enabled(s.sched, e) && !e.TaskEnds?
    ensures ServiceInv(s.(sched := Apply(cron, s.sched, e)))
  {
    StepInv(cron, s.sched, e);
    StepRefs(cron, s.sched, e);
    IdsKept(s.sched.heap, Apply(cron, s.sched, e).heap, s.sched.marked);
  }

  lemma InitialServiceInv()
    ensures ServiceInv(INITIAL)
  {
    InitialInv();
  }

  lemma {:induction false} ServiceRunInv(cron: CronNext, states: seq<Service>, events: seq<ServiceEvent>, i: nat)
    requires IsServiceRun(cron, states, events) && i < |states|
    ensures ServiceInv(states[i])
  {
    if i == 0 {
      InitialServiceInv();
    } else {
      ServiceRunInv(cron, states, events, i - 1);
      var s, e := states[i - 1], events[i - 1];
      assert ServiceStep(cron, s, e, states[i - 1 + 1]);
      match e
      case Plain(event) => PlainInv(cron, s, event);
      case ExecutorEnds(p, durationMs, result, now) => AttemptInv(cron, s, p, durationMs, result, now);
    }
  }

  lemma {:induction false} DueAreNumbered(attempts: seq<Attempt>)
    ensures |DueLogs(attempts)| == Ended(attempts)
    ensures forall i :: 0 <= i < |DueLogs(attempts)| ==> DueLogs(attempts)[i].id == i + 1
  {
    if attempts != [] {
      DueAreNumbered(attempts[..|attempts| - 1]);
    }
  }

  /**
   Main result: over any interleaving, the log of every task holds exactly the
   entries due for its attempts, one for each that ended in a return or an
   exception, in order and with ids that are never used twice; every execution
   that began has been attempted or is in flight; and the success logs are the
   schedule advances.
   */
  lemma OneLogPerAttempt(cron: CronNext, states: seq<Service>, events: seq<ServiceEvent>, i: nat)
    requires IsServiceRun(cron, states, events) && i < |states|
    ensures var s, due := states[i], DueLogs(states[i].attempts);
            && (forall t {:trigger LogsOf(s.book.logs, t)} :: LogsOf(s.book.logs, t) == Only(due, t))
            && |due| == Ended(s.attempts)
            && (forall k :: 0 <= k < |due| ==> due[k].id == k + 1)
            && s.sched.begun == |s.attempts| + |s.sched.running|
            && SuccessIds(due) == IdsOf(s.sched.heap, s.sched.marked)
  {
    ServiceRunInv(cron, states, events, i);
    DueAreNumbered(states[i].attempts);
  }

  // ---- what an attempt is -----------------------------------------------

  /** At b the pass took up the task, at that time, and it is still executing it at k. */
  ghost predicate BegunAt(states: seq<Service>, events: seq<ServiceEvent>, b: nat, k: nat, p: nat,
                           run: TaskScheduling.Execution)
    requires k < |states| == |events| + 1
  {
    && b < k && events[b] == Plain(PassNext(p, run.runAt))
    && p in states[b].sched.passes && states[b].sched.passes[p].due != []
    && states[b].sched.passes[p].due[0] == run.ref
    && forall m | b < m <= k :: p in states[m].sched.passes && states[m].sched.passes[p].current == Some(run)
  }

  /** A pass comes to execute something only by taking up its next task. */
  lemma StepTakesUp(cron: CronNext, s: Service, e: ServiceEvent, t: Service, p: nat)
    requires ServiceStep(cron, s, e, t) && p in t.sched.passes && t.sched.passes[p].current.Some?
    ensures var run := t.sched.passes[p].current.value;
            || (p in s.sched.passes && s.sched.passes[p].current == Some(run))
            || (e == Plain(PassNext(p, run.runAt)) && p in s.sched.passes && s.sched.passes[p].due != []
                && s.sched.passes[p].due[0] == run.ref)
  {
  }

  lemma {:induction false} WhenBegun(cron: CronNext, states: seq<Service>, events: seq<ServiceEvent>, k: nat, p: nat)
      returns (b: nat)
    requires IsServiceRun(cron, states, events) && k < |states|
    requires p in states[k].sched.passes && states[k].sched.passes[p].current.Some?
    ensures BegunAt(states, events, b, k, p, states[k].sched.passes[p].current.value)
    decreases k
  {
    NoPassesAtFirst(cron, states, events);
    assert ServiceStep(cron, states[k - 1], events[k - 1], states[k - 1 + 1]);
    StepTakesUp(cron, states[k - 1], events[k - 1], states[k], p);
    var run := states[k].sched.passes[p].current.value;
    if p in states[k - 1].sched.passes && states[k - 1].sched.passes[p].current == Some(run) {
      b := WhenBegun(cron, states, events, k - 1, p);
    } else {
      b := k - 1;
    }
  }

  lemma NoPassesAtFirst(cron: CronNext, states: seq<Service>, events: seq<ServiceEvent>)
    requires IsServiceRun(cron, states, events)
    ensures states[0].sched.passes == map[] && states[0].attempts == []
  {
  }

  /**
   Main result: an executor that ends adds one attempt: of the task that its
   pass took up at some earlier step, with the time of that step, the duration
   measured, and what the executor returned or raised.
   */
  lemma AttemptTells(cron: CronNext, states: seq<Service>, events: seq<ServiceEvent>, k: nat)
      returns (b: nat, a: Attempt)
    requires IsServiceRun(cron, states, events) && k < |events| && events[k].ExecutorEnds?
    ensures states[k + 1].attempts == states[k].attempts + [a]
    ensures BegunAt(states, events, b, k, events[k].p, TaskScheduling.Execution(a.ref, a.runAt))
    ensures a.durationMs == events[k].durationMs && a.result == events[k].result
    ensures a.ref < |states[k].sched.heap| && a.taskId == states[k].sched.heap[a.ref].id
  {
    var s, e := states[k], events[k];
    assert ServiceStep(cron, s, e, states[k + 1]);
    b := WhenBegun(cron, states, events, k, e.p);
    a := states[k + 1].attempts[|s.attempts|];
  }

  /** And nothing else adds one. */
  lemma OnlyExecutorsAttempt(cron: CronNext, states: seq<Service>, events: seq<ServiceEvent>, k: nat)
    requires IsServiceRun(cron, states, events) && k < |events| && !events[k].ExecutorEnds?
    ensures states[k + 1].attempts == states[k].attempts && states[k + 1].book == states[k].book
  {
    assert ServiceStep(cron, states[k], events[k], states[k + 1]);
  }

  // ---- the scheduler's own runs ---------------------------------------

  function SchedulerEvent(e: ServiceEvent): Event {
    match e
    case Plain(event) => event
    case ExecutorEnds(p, _, result, now) => TaskEnds(p, OutcomeOf(result), now)
  }

  function SchedulerEvents(events: seq<ServiceEvent>): seq<Event> {
    seq(|events|, i requires 0 <= i < |events| => SchedulerEvent(events[i]))
  }

  function Schedulers(states: seq<Service>): seq<Sched> {
    seq(|states|, i requires 0 <= i < |states| => states[i].sched)
  }

  /** Seen from the scheduler alone, such a run is one of its runs, so everything proved about those holds here. */
  lemma SchedulerRuns(cron: CronNext, states: seq<Service>, events: seq<ServiceEvent>)
    requires IsServiceRun(cron, states, events)
    ensures IsRun(cron, Schedulers(states), SchedulerEvents(events))
  {
    var scheds, plain := Schedulers(states), SchedulerEvents(events);
    forall i | 0 <= i < |plain| ensures IsStep(cron, scheds[i], plain[i], scheds[i + 1]) {
      assert ServiceStep(cron, states[i], events[i], states[i + 1]);
    }
  }
}
