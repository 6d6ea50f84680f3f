/**
 What the coordinator takes in and what it notes down: its submissions are the
 submit events, and a run's snapshot tells whether a recovery was attempted.
 */
module CoordinatorSubmissions {
  import opened Wrappers
  import opened Execution
  import opened CoordinatorSteps
  import opened CoordinatorInvariant
  import opened CoordinatorPreservation
  import opened CoordinatorHistory
  import opened CoordinatorSessions

  // ---- steps that take in nothing -------------------------------------

  /** Two snapshots of the same request with the same recovery marks. */
  predicate SameNotes(a: Snapshot, b: Snapshot) {
    && b.request == a.request && b.recoveryAttempted == a.recoveryAttempted
    && b.recoveryReason == a.recoveryReason && b.recoverySucceeded == a.recoverySucceeded
  }

  ghost predicate NotesKept(before: map<RunId, Snapshot>, after: map<RunId, Snapshot>) {
    forall run | run in after :: run in before && SameNotes(before[run], after[run])
  }

  /** No run is submitted, abandoned or called, and no snapshot gets a new request or other recovery marks. */
  ghost predicate Calm(s: State, t: State) {
    && t.past.submitted == s.past.submitted && t.past.known == s.past.known
    && t.past.abandoned == s.past.abandoned && t.past.calls == s.past.calls
    && NotesKept(s.snapshots, t.snapshots)
  }

  lemma {:induction false} EvictKeepsNotes(max: nat, c: Cache)
    ensures NotesKept(c.snapshots, EvictStale(max, c).snapshots)
    decreases |c.order|
  {
    if |c.order| > max {
      var stale := c.order[0];
      EvictKeepsNotes(max, Cache(c.order[1..], c.results - {stale}, c.statuses - {stale}, c.snapshots - {stale}));
    }
  }

  lemma StoreIsCalm(max: nat, s: State, result: Result)
    ensures Calm(s, StoreTerminal(max, s, result))
  {
    EvictKeepsNotes(max, Record(s, result));
  }

  lemma PopHeadIsCalm(cfg: Config, s: State, group: string)
    requires At(s.queues, group) != []
    ensures Calm(s, PopHead(cfg, s, group))
  {
    var entry := At(s.queues, group)[0];
    var place := PlaceFor(cfg, s, entry);
    var t := LogPop(s, entry, group, place);
    if place != Skipped && place != Dropped {
      match cfg.policy(entry.request)
      case Raised(message) => RejectIsCalm(cfg, t, entry, "unknown", entry.request.slot, message);
      case Selected(backend) =>
        if backend !in cfg.backends {
          RejectIsCalm(cfg, t, entry, backend, "main", "unknown execution backend: " + backend);
        }
    }
  }

  lemma RejectIsCalm(cfg: Config, s: State, entry: Entry, backend: string, slot: string, error: string)
    ensures Calm(s, RejectEntry(cfg, s, entry, backend, slot, error))
  {
    var peek := Peek(cfg, s, entry.request, backend);
    StoreIsCalm(cfg.maxCompleted, s.(store := peek.store, adHocDraws := peek.adHocDraws),
                PlainResult(entry.run, entry.request, backend, peek.sessionId, Failed, Some(error)).(slot := slot));
  }

  lemma {:induction false} TurnIsCalm(cfg: Config, s: State, group: string)
    ensures Calm(s, Turn(cfg, s, group))
    decreases |At(s.queues, group)|
  {
    if At(s.queues, group) != [] {
      PopHeadShortens(cfg, s, group);
      PopHeadIsCalm(cfg, s, group);
      TurnIsCalm(cfg, PopHead(cfg, s, group), group);
    }
  }

  lemma FinishIsCalm(cfg: Config, s: State, group: string)
    requires Enabled(s, WorkerResume(group))
    ensures Calm(s, FinishRun(cfg, s, group))
  {
    var run := s.workers[group].run;
    assert Calm(s, Release(s, run, group));
    if run !in s.cancelled && s.tasks[run].phase.Finished? {
      StoreIsCalm(cfg.maxCompleted, Release(s, run, group), s.tasks[run].phase.result);
    }
  }

  lemma CancelIsCalm(cfg: Config, s: State, run: RunId)
    ensures Calm(s, Cancel(cfg, s, run))
  {
    if CanCancel(s, run) {
      var request := s.requests[run];
      var backend := SafeSelect(cfg, request);
      var t := AfterPeek(cfg, s, request, backend);
      if s.statuses[run] == Queued {
        StoreIsCalm(cfg.maxCompleted, t,
                    PlainResult(run, request, backend, Peek(cfg, s, request, backend).sessionId, Cancelled, None));
      } else {
        StoreIsCalm(cfg.maxCompleted, MarkForCancel(t, run), CancelResult(cfg, s, run));
      }
    }
  }

  lemma OtherEventsAreCalm(cfg: Config, s: State, e: Event)
    requires Enabled(s, e) && !e.SubmitEvent? && !e.TaskBegin? && !e.CallEnd? && !e.WaiterCancelled?
    ensures Calm(s, Apply(cfg, s, e))
  {
    match e
    case WorkerTurn(group) => TurnIsCalm(cfg, s, group);
    case WorkerResume(group) =>
      FinishIsCalm(cfg, s, group);
      TurnIsCalm(cfg, FinishRun(cfg, s, group), group);
    case TaskUnwind(_) =>
    case CancelEvent(run) => CancelIsCalm(cfg, s, run);
  }

  // ---- submissions ----------------------------------------------------

  /** The runs submitted to a group, in order. */
  function Submissions(events: seq<Event>, group: string): seq<Entry> {
    if events == [] then []
    else
      var init, last := Submissions(events[..|events| - 1], group), events[|events| - 1];
      if last.SubmitEvent? && last.request.group == group then init + [Entry(last.run, last.request)] else init
  }

  lemma StepSubmits(cfg: Config, s: State, e: Event, group: string)
    requires Inv(cfg, s) && Enabled(s, e)
    ensures At(Apply(cfg, s, e).past.submitted, group) ==
              At(s.past.submitted, group)
              + (if e.SubmitEvent? && e.request.group == group then [Entry(e.run, e.request)] else [])
  {
    if !e.SubmitEvent? && !e.TaskBegin? && !e.CallEnd? && !e.WaiterCancelled? {
      OtherEventsAreCalm(cfg, s, e);
    } else if e.CallEnd? {
      var phase := CallEndMoves(cfg, s, e.run, e.outcome);
    }
  }

  lemma RunStepSubmits(cfg: Config, states: seq<State>, events: seq<Event>, j: nat, group: string)
    requires IsRun(cfg, states, events) && j < |events|
    ensures At(states[j + 1].past.submitted, group) ==
              At(states[j].past.submitted, group)
              + (if events[j].SubmitEvent? && events[j].request.group == group
                 then [Entry(events[j].run, events[j].request)] else [])
  {
    RunInv(cfg, states, events, j);
    assert Enabled(states[j], events[j]) && states[j + 1] == Apply(cfg, states[j], events[j]);
    StepSubmits(cfg, states[j], events[j], group);
  }

  lemma NoSubmissionsAtFirst(cfg: Config, states: seq<State>, events: seq<Event>, group: string)
    requires IsRun(cfg, states, events)
    ensures At(states[0].past.submitted, group) == []
    ensures states[0].snapshots == map[] && states[0].tasks == map[]
  {
  }

  /** Main result: what a group has taken in is exactly what was submitted to it, in that order. */
  lemma {:induction false} SubmittedIs(cfg: Config, states: seq<State>, events: seq<Event>, j: nat, group: string)
    requires IsRun(cfg, states, events) && j < |states|
    ensures At(states[j].past.submitted, group) == Submissions(events[..j], group)
    decreases j
  {
    if j == 0 {
      NoSubmissionsAtFirst(cfg, states, events, group);
    } else {
      SubmittedIs(cfg, states, events, j - 1, group);
      RunStepSubmits(cfg, states, events, j - 1, group);
      assert events[..j][..j - 1] == events[..j - 1];
    }
  }

  // ---- recovery marks -------------------------------------------------

  /** A snapshot shows its run's request, and a recovery exactly if the run called its backend a second time. */
  predicate NotesFit(s: State, run: RunId) {
    run in s.snapshots ==>
      var shown, attempted := s.snapshots[run], |At(s.past.calls, run)| == 2;
      && run in s.past.known && shown.request == s.past.known[run].request
      && shown.recoveryAttempted == attempted && shown.recoveryReason.Some? == attempted
      && (shown.recoverySucceeded.Some? ==> attempted)
      && (run in s.tasks && s.tasks[run].phase.SecondCall? ==> shown.recoverySucceeded.None?)
      && (run in s.tasks && s.tasks[run].phase.Finished? && attempted ==> shown.recoverySucceeded.Some?)
  }

  /** The backend raised the resume failure that a snapshot gives as its reason. */
  ghost predicate ReasonGiven(events: seq<Event>, j: nat, run: RunId, reason: string) {
    exists k :: 0 <= k < j && k < |events| && events[k] == CallEnd(run, RuntimeRaised(reason, true))
  }

  /** The run's second call came back, with an error or without. */
  ghost predicate RecoveryEnded(states: seq<State>, events: seq<Event>, j: nat, run: RunId, succeeded: bool) {
    exists k :: 0 <= k < j && k < |events| && k < |states|
                && events[k].CallEnd? && events[k].run == run && run in states[k].tasks
                && states[k].tasks[run].phase.SecondCall? && succeeded == !events[k].outcome.RuntimeRaised?
  }

  /** What one step does to a run's marks. */
  ghost predicate MarksStep(s: State, e: Event, t: State, run: RunId) {
    run in t.snapshots ==>
      if e.SubmitEvent? && e.run == run then t.snapshots[run] == NewSnapshot(e.request)
      else
        && run in s.snapshots && t.snapshots[run].request == s.snapshots[run].request
        && if e.CallEnd? && e.run == run && run in s.tasks && run in t.tasks && t.tasks[run].phase.SecondCall? then
             && e.outcome.RuntimeRaised? && e.outcome.resumeFailed && t.snapshots[run].recoveryAttempted
             && t.snapshots[run].recoveryReason == Some(e.outcome.message)
             && t.snapshots[run].recoverySucceeded == None
           else if e.CallEnd? && e.run == run && run in s.tasks && s.tasks[run].phase.SecondCall? then
             SameNotes(s.snapshots[run].(recoverySucceeded := Some(!e.outcome.RuntimeRaised?)), t.snapshots[run])
           else SameNotes(s.snapshots[run], t.snapshots[run])
  }

  /** The snapshots and the task once a call has ended. */
  predicate CallEndShows(s: State, t: State, ended: RunId, outcome: Outcome) {
    && ended in s.tasks && ended in t.tasks
    && var task := s.tasks[ended];
       var retried := task.phase.FirstCall? && outcome.RuntimeRaised? && ShouldRetry(task, outcome.resumeFailed);
       && t.tasks[ended].phase.SecondCall? == retried
       && t.snapshots ==
            if retried then MarkRecoveryAttempt(s.snapshots, ended, outcome.message)
            else if task.phase.FirstCall? then s.snapshots
            else MarkRecoveryResult(s.snapshots, ended, !outcome.RuntimeRaised?)
  }

  lemma FirstCallShown(cfg: Config, s: State, ended: RunId, outcome: Outcome)
    requires ended in s.tasks && s.tasks[ended].phase.FirstCall?
    ensures CallEndShows(s, EndFirstCall(cfg, s, ended, outcome), ended, outcome)
  {
    var task := s.tasks[ended];
    if !outcome.RuntimeRaised? {
      ConcludeShown(s, ended, CallResult(ended, task, task.sessionId, outcome));
    } else if ShouldRetry(task, outcome.resumeFailed) {
      RetryShown(cfg, s, ended, outcome.message);
    }
  }

  lemma ConcludeShown(s: State, ended: RunId, result: Result)
    requires ended in s.tasks
    ensures var t := ConcludeTask(s, ended, result);
            ended in t.tasks && t.tasks[ended].phase.Finished? && t.snapshots == s.snapshots
  {
  }

  lemma RetryShown(cfg: Config, s: State, ended: RunId, message: string)
    requires ended in s.tasks
    ensures var t := RetryTask(cfg, s, ended, message);
            && ended in t.tasks && t.tasks[ended].phase.SecondCall?
            && t.snapshots == MarkRecoveryAttempt(s.snapshots, ended, message)
  {
  }

  lemma SecondCallShown(s: State, ended: RunId, retryId: string, outcome: Outcome)
    requires ended in s.tasks && s.tasks[ended].phase == SecondCall(retryId)
    ensures CallEndShows(s, EndSecondCall(s, ended, retryId, outcome), ended, outcome)
  {
    var marked := s.(snapshots := MarkRecoveryResult(s.snapshots, ended, !outcome.RuntimeRaised?));
    if !outcome.RuntimeRaised? {
      ConcludeShown(marked, ended, CallResult(ended, s.tasks[ended], retryId, outcome));
    }
  }

  lemma CallEndShown(cfg: Config, s: State, ended: RunId, outcome: Outcome)
    requires Enabled(s, CallEnd(ended, outcome))
    ensures CallEndShows(s, EndCall(cfg, s, ended, outcome), ended, outcome)
  {
    if s.tasks[ended].phase.FirstCall? {
      FirstCallShown(cfg, s, ended, outcome);
    } else {
      SecondCallShown(s, ended, s.tasks[ended].phase.retryId, outcome);
    }
  }

  lemma CallEndMarks(s: State, t: State, ended: RunId, outcome: Outcome, run: RunId)
    requires Enabled(s, CallEnd(ended, outcome)) && CallEndShows(s, t, ended, outcome)
    ensures MarksStep(s, CallEnd(ended, outcome), t, run)
  {
  }

  lemma StepMarks(cfg: Config, s: State, e: Event, run: RunId)
    requires Enabled(s, e)
    ensures MarksStep(s, e, Apply(cfg, s, e), run)
  {
    if !e.SubmitEvent? && !e.TaskBegin? && !e.CallEnd? && !e.WaiterCancelled? {
      OtherEventsAreCalm(cfg, s, e);
    } else if e.CallEnd? {
      CallEndShown(cfg, s, e.run, e.outcome);
      CallEndMarks(s, Apply(cfg, s, e), e.run, e.outcome, run);
    }
  }

  /** Everything a run's snapshot says about recovery. */
  ghost predicate Told(states: seq<State>, events: seq<Event>, j: nat, run: RunId)
    requires j < |states| == |events| + 1
  {
    && NotesFit(states[j], run)
    && (run in states[j].snapshots && states[j].snapshots[run].recoveryReason.Some? ==>
          ReasonGiven(events, j, run, states[j].snapshots[run].recoveryReason.value))
    && (run in states[j].snapshots && states[j].snapshots[run].recoverySucceeded.Some? ==>
          RecoveryEnded(states, events, j, run, states[j].snapshots[run].recoverySucceeded.value))
  }

  lemma QuietNotes(cfg: Config, s: State, e: Event, t: State, run: RunId)
    requires Inv(cfg, s) && Quiet(cfg, s, t) && Grows(s.past, t.past) && !e.CallEnd?
    requires e.SubmitEvent? && e.run == run ==> run !in s.past.known && Lookup(t.past.known, run).Some?
                                                && t.past.known[run].request == e.request
    requires NotesFit(s, run) && MarksStep(s, e, t, run)
    ensures NotesFit(t, run)
  {
    assert RunOk(cfg, run, View(s, run));
  }

  lemma MoveNotes(cfg: Config, s: State, e: Event, t: State, moved: RunId, phase: Phase, run: RunId)
    requires Inv(cfg, s) && PhaseMove(s, t, moved, phase) && CallsFit(s, t, moved, phase)
    requires e.CallEnd? && e.run == moved && InCall(s.tasks[moved])
    requires NotesFit(s, run) && MarksStep(s, e, t, run)
    ensures NotesFit(t, run)
  {
    assert RunOk(cfg, run, View(s, run));
  }

  lemma BeginNotes(cfg: Config, s: State, moved: RunId, run: RunId)
    requires Inv(cfg, s) && moved in s.tasks && s.tasks[moved].phase.Scheduled? && NotesFit(s, run)
    ensures NotesFit(BeginTask(s, moved), run)
  {
    assert RunOk(cfg, moved, View(s, moved));
    CallLogged(s.past, moved, s.tasks[moved].sessionId);
  }

  lemma UnwindNotes(s: State, moved: RunId, run: RunId)
    requires moved in s.tasks && NotesFit(s, run)
    ensures NotesFit(UnwindTask(s, moved), run)
  {
  }

  lemma StepNotes(cfg: Config, s: State, e: Event, run: RunId)
    requires Inv(cfg, s) && Enabled(s, e) && NotesFit(s, run)
    ensures MarksStep(s, e, Apply(cfg, s, e), run) && NotesFit(Apply(cfg, s, e), run)
  {
    StepMarks(cfg, s, e, run);
    if e.CallEnd? {
      var phase := CallEndMoves(cfg, s, e.run, e.outcome);
      MoveNotes(cfg, s, e, Apply(cfg, s, e), e.run, phase, run);
    } else if e.TaskBegin? {
      BeginNotes(cfg, s, e.run, run);
    } else if e.TaskUnwind? {
      UnwindNotes(s, e.run, run);
    } else {
      OtherNotes(cfg, s, e, run);
    }
  }

  lemma OtherNotes(cfg: Config, s: State, e: Event, run: RunId)
    requires Inv(cfg, s) && Enabled(s, e) && !IsTaskEvent(e)
    requires NotesFit(s, run) && MarksStep(s, e, Apply(cfg, s, e), run)
    ensures NotesFit(Apply(cfg, s, e), run)
  {
    OtherEventsAreQuiet(cfg, s, e);
    StepGrows(cfg, s, e);
    QuietNotes(cfg, s, e, Apply(cfg, s, e), run);
  }

  lemma RunStepNotes(cfg: Config, states: seq<State>, events: seq<Event>, j: nat, run: RunId)
    requires IsRun(cfg, states, events) && j < |events| && NotesFit(states[j], run)
    ensures MarksStep(states[j], events[j], states[j + 1], run) && NotesFit(states[j + 1], run)
  {
    RunInv(cfg, states, events, j);
    assert Enabled(states[j], events[j]) && states[j + 1] == Apply(cfg, states[j], events[j]);
    StepNotes(cfg, states[j], events[j], run);
  }

  /**
   Main result: while it is kept, a run's snapshot tells whether the run tried
   to recover its session, for which resume failure, and how that ended.
   */
  lemma {:induction false} RecoveryTold(cfg: Config, states: seq<State>, events: seq<Event>, j: nat, run: RunId)
    requires IsRun(cfg, states, events) && j < |states|
    ensures Told(states, events, j, run)
    decreases j
  {
    if j == 0 {
      NoSubmissionsAtFirst(cfg, states, events, "");
    } else {
      RecoveryTold(cfg, states, events, j - 1, run);
      RunStepNotes(cfg, states, events, j - 1, run);
      ToldOn(states, events, j - 1, run);
    }
  }

  lemma ToldOn(states: seq<State>, events: seq<Event>, j: nat, run: RunId)
    requires j < |events| && |states| == |events| + 1 && Told(states, events, j, run)
    requires MarksStep(states[j], events[j], states[j + 1], run) && NotesFit(states[j + 1], run)
    ensures Told(states, events, j + 1, run)
  {
  }
}
