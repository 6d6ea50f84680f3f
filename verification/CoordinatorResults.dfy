/**
 What a run ends with: the report of its last backend call, unless it was
 cancelled through the coordinator or rejected before it could start.
 */
module CoordinatorResults {
  import opened Wrappers
  import opened Execution
  import opened WorkspaceLifecycle
  import opened CoordinatorSteps
  import opened CoordinatorInvariant
  import opened CoordinatorPreservation
  import opened CoordinatorHistory
  import opened CoordinatorSessions

  // ---- the three ways to end ------------------------------------------

  /** A run that no registered backend was selected for fails with the policy's message, or with the unknown name. */
  ghost predicate RejectReports(cfg: Config, store: Store, draws: nat, request: Request, result: Result) {
    && IdFits(cfg, Resolving(store, request, result.backend, result.sessionId), draws)
    && result.group == request.group
    && match cfg.policy(request)
       case Raised(message) =>
         SaysOnly(result, message) && result.backend == "unknown" && result.slot == request.slot
       case Selected(backend) =>
         && backend !in cfg.backends && SaysOnly(result, "unknown execution backend: " + backend)
         && result.backend == backend && result.slot == "main"
  }

  /** The backend a cancelled run reports: the one selected, if the policy selects any. */
  predicate NamesBackend(cfg: Config, request: Request, backend: string) {
    match cfg.policy(request)
    case Selected(selected) => backend == selected
    case Raised(_) => backend == "unknown"
  }

  /**
   A cancelled run reports nothing but its identity: the id of its last call,
   or of the one it was about to make, or the id it would have been given.
   */
  ghost predicate CancelReports(cfg: Config, s: State, run: RunId, draws: nat, result: Result) {
    && run in s.requests
    && var request := s.requests[run];
       && result.status == Cancelled && result.group == request.group && result.slot == request.slot
       && result.finalOutput == None && result.error == None && result.timeoutMs == None
       && NamesBackend(cfg, request, result.backend)
       && if run in s.tasks
          then result.sessionId == LastId(s.tasks[run].sessionId, At(s.past.calls, run))
          else IdFits(cfg, Resolving(s.store, request, result.backend, result.sessionId), draws)
  }

  // ---- what a step ends -----------------------------------------------

  lemma StoreFinal(max: nat, s: State, result: Result, run: RunId)
    requires LogOk(s.past.terminals, s.past.finishedAt)
    ensures FinalOf(StoreTerminal(max, s, result), run) ==
              if run == result.run then Some(result) else FinalOf(s, run)
  {
  }

  lemma RejectEnds(cfg: Config, s: State, entry: Entry, backend: string, slot: string, error: string, run: RunId)
    requires LogOk(s.past.terminals, s.past.finishedAt)
    ensures var t := RejectEntry(cfg, s, entry, backend, slot, error);
            && (run != entry.run ==> FinalOf(t, run) == FinalOf(s, run))
            && FinalOf(t, entry.run).Some?
            && var result := FinalOf(t, entry.run).value;
               && SaysOnly(result, error) && result.group == entry.request.group
               && result.backend == backend && result.slot == slot
               && IdFits(cfg, Resolving(s.store, entry.request, backend, result.sessionId), t.store.draws)
  {
    var peek := Peek(cfg, s, entry.request, backend);
    ResolveFits(cfg, s.store, s.adHocDraws, entry.request, backend);
    StoreFinal(cfg.maxCompleted, s.(store := peek.store, adHocDraws := peek.adHocDraws),
               PlainResult(entry.run, entry.request, backend, peek.sessionId, Failed, Some(error)).(slot := slot), run);
    StoreFinal(cfg.maxCompleted, s.(store := peek.store, adHocDraws := peek.adHocDraws),
               PlainResult(entry.run, entry.request, backend, peek.sessionId, Failed, Some(error)).(slot := slot),
               entry.run);
  }

  /** If the run has ended it was rejected, for what the store showed before. */
  ghost predicate EndsRejected(cfg: Config, s: State, t: State, run: RunId) {
    FinalOf(s, run).None? && FinalOf(t, run).Some? ==>
      && run in t.past.known && PlaceOf(t, run) == Rejected
      && RejectReports(cfg, s.store, t.store.draws, t.past.known[run].request, FinalOf(t, run).value)
  }

  /** What the worker says of an entry it cannot start. */
  predicate Refusal(cfg: Config, request: Request, backend: string, slot: string, error: string) {
    match cfg.policy(request)
    case Raised(message) => backend == "unknown" && slot == request.slot && error == message
    case Selected(selected) =>
      && selected !in cfg.backends
      && backend == selected && slot == "main" && error == "unknown execution backend: " + selected
  }

  lemma RefusedHead(cfg: Config, s: State, group: string, backend: string, slot: string, error: string, run: RunId)
    requires Inv(cfg, s) && At(s.queues, group) != []
    requires Refusal(cfg, At(s.queues, group)[0].request, backend, slot, error)
    ensures var entry := At(s.queues, group)[0];
            EndsRejected(cfg, s, RejectEntry(cfg, LogPop(s, entry, group, Rejected), entry, backend, slot, error), run)
  {
    var entry := At(s.queues, group)[0];
    var t := LogPop(s, entry, group, Rejected);
    HeadIsNext(cfg, s, group);
    LogPopEffect(cfg, s, group, Rejected);
    assert FinalOf(t, run) == FinalOf(s, run) && View(t, entry.run).place == Rejected;
    RejectEnds(cfg, t, entry, backend, slot, error, run);
    RejectKeepsPlace(cfg, t, entry, backend, slot, error);
  }

  lemma RejectKeepsPlace(cfg: Config, s: State, entry: Entry, backend: string, slot: string, error: string)
    ensures var t := RejectEntry(cfg, s, entry, backend, slot, error);
            t.past.known == s.past.known && PlaceOf(t, entry.run) == PlaceOf(s, entry.run)
  {
  }

  lemma PassedOver(cfg: Config, s: State, group: string, run: RunId)
    requires At(s.queues, group) != [] && PlaceFor(cfg, s, At(s.queues, group)[0]) != Rejected
    ensures FinalOf(PopHead(cfg, s, group), run) == FinalOf(s, run)
  {
  }

  lemma RefusedHeadIs(cfg: Config, s: State, group: string) returns (backend: string, slot: string, error: string)
    requires At(s.queues, group) != [] && PlaceFor(cfg, s, At(s.queues, group)[0]) == Rejected
    ensures var entry := At(s.queues, group)[0];
            && Refusal(cfg, entry.request, backend, slot, error)
            && PopHead(cfg, s, group)
               == RejectEntry(cfg, LogPop(s, entry, group, Rejected), entry, backend, slot, error)
  {
    var request := At(s.queues, group)[0].request;
    match cfg.policy(request)
    case Raised(message) => return "unknown", request.slot, message;
    case Selected(selected) => return selected, "main", "unknown execution backend: " + selected;
  }

  lemma PopHeadEnds(cfg: Config, s: State, group: string, run: RunId)
    requires Inv(cfg, s) && At(s.queues, group) != []
    ensures EndsRejected(cfg, s, PopHead(cfg, s, group), run)
  {
    if PlaceFor(cfg, s, At(s.queues, group)[0]) != Rejected {
      PassedOver(cfg, s, group, run);
    } else {
      var backend, slot, error := RefusedHeadIs(cfg, s, group);
      RefusedHead(cfg, s, group, backend, slot, error, run);
    }
  }

  /** What ends in the rest of a turn is judged by the same store, and by no fewer draws. */
  lemma EndsLater(cfg: Config, s: State, t: State, u: State, run: RunId)
    requires Quiet(cfg, s, t) && Grows(t.past, u.past) && Inv(cfg, t) && Inv(cfg, u)
    requires EndsRejected(cfg, s, t, run) && EndsRejected(cfg, t, u, run) && t.store.draws <= u.store.draws
    ensures EndsRejected(cfg, s, u, run)
  {
    assert RunOk(cfg, run, View(t, run)) && RunOk(cfg, run, View(u, run));
    if FinalOf(t, run).Some? {
      assert FinalOf(u, run) == FinalOf(t, run);
      var group := t.past.known[run].request.group;
      assert At(t.past.popped, group) <= At(u.past.popped, group);
    } else if FinalOf(u, run).Some? {
      var key := KeyOf(u.past.known[run].request);
      assert GetState(t.store, key) == GetState(s.store, key);
    }
  }

  lemma {:induction false} TurnEnds(cfg: Config, s: State, group: string, run: RunId)
    requires Inv(cfg, s) && group in s.workers && s.workers[group].Ready?
    ensures EndsRejected(cfg, s, Turn(cfg, s, group), run)
    decreases |At(s.queues, group)|
  {
    if At(s.queues, group) != [] {
      var t := PopHead(cfg, s, group);
      PopHeadEnds(cfg, s, group, run);
      PopHeadInv(cfg, s, group);
      PopHeadShortens(cfg, s, group);
      PopHeadKeepsWorker(cfg, s, group);
      if t.workers[group].Ready? {
        TurnEnds(cfg, t, group, run);
        TurnRest(cfg, s, t, group, run);
      }
    }
  }

  lemma TurnRest(cfg: Config, s: State, t: State, group: string, run: RunId)
    requires Inv(cfg, s) && At(s.queues, group) != [] && t == PopHead(cfg, s, group) && Inv(cfg, t)
    requires group in t.workers && t.workers[group].Ready?
    requires EndsRejected(cfg, s, t, run) && EndsRejected(cfg, t, Turn(cfg, t, group), run)
    ensures EndsRejected(cfg, s, Turn(cfg, t, group), run)
  {
    PopHeadIsQuiet(cfg, s, group);
    TurnIsQuiet(cfg, t, group);
    TurnInv(cfg, t, group);
    TurnGrows(cfg, t, group);
    EndsLater(cfg, s, t, Turn(cfg, t, group), run);
  }

  lemma FinishEnds(cfg: Config, s: State, group: string, run: RunId)
    requires Inv(cfg, s) && Enabled(s, WorkerResume(group))
    ensures FinalOf(FinishRun(cfg, s, group), run) ==
              if run == s.workers[group].run && run !in s.cancelled && s.tasks[run].phase.Finished?
              then Some(s.tasks[run].phase.result) else FinalOf(s, run)
  {
    var awaited := s.workers[group].run;
    assert RunOk(cfg, awaited, View(s, awaited));
    if awaited !in s.cancelled && s.tasks[awaited].phase.Finished? {
      StoreFinal(cfg.maxCompleted, Release(s, awaited, group), s.tasks[awaited].phase.result, run);
    }
  }

  lemma CancelFinal(cfg: Config, s: State, cancelled: RunId, run: RunId)
    requires Inv(cfg, s) && FinalOf(s, run).None? && FinalOf(Cancel(cfg, s, cancelled), run).Some?
    ensures run == cancelled && run in s.requests
    ensures FinalOf(Cancel(cfg, s, run), run).value ==
              if run in s.tasks then CancelResult(cfg, s, run)
              else
                var request, backend := s.requests[run], SafeSelect(cfg, s.requests[run]);
                PlainResult(run, request, backend, Peek(cfg, s, request, backend).sessionId, Cancelled, None)
    ensures var request := s.requests[run];
            Cancel(cfg, s, run).store.draws == Peek(cfg, s, request, SafeSelect(cfg, request)).store.draws
  {
    assert RunOk(cfg, cancelled, View(s, cancelled));
    var request := s.requests[cancelled];
    var backend := SafeSelect(cfg, request);
    var t := AfterPeek(cfg, s, request, backend);
    if s.statuses[cancelled] == Queued {
      StoreFinal(cfg.maxCompleted, t,
                 PlainResult(cancelled, request, backend, Peek(cfg, s, request, backend).sessionId, Cancelled, None),
                 run);
    } else {
      StoreFinal(cfg.maxCompleted, MarkForCancel(t, cancelled), CancelResult(cfg, s, cancelled), run);
    }
  }

  /** A cancel ends no run but its own, and what it reports. */
  lemma CancelEndsWith(cfg: Config, s: State, cancelled: RunId, run: RunId)
    requires Inv(cfg, s) && FinalOf(s, run).None? && FinalOf(Cancel(cfg, s, cancelled), run).Some?
    ensures run == cancelled
    ensures CancelReports(cfg, s, run, Cancel(cfg, s, run).store.draws, FinalOf(Cancel(cfg, s, run), run).value)
  {
    CancelFinal(cfg, s, cancelled, run);
    assert RunOk(cfg, run, View(s, run));
    ResolveFits(cfg, s.store, s.adHocDraws, s.requests[run], SafeSelect(cfg, s.requests[run]));
  }

  lemma CancelReported(cfg: Config, s: State, run: RunId)
    requires Inv(cfg, s)
    ensures var t := Cancel(cfg, s, run);
            FinalOf(s, run).None? && StageOf(t, run).Ended? ==>
              CancelReports(cfg, s, run, t.store.draws, StageOf(t, run).result)
  {
    if FinalOf(s, run).None? && StageOf(Cancel(cfg, s, run), run).Ended? {
      CancelEndsWith(cfg, s, run, run);
    }
  }

  /** What the end of a call leaves in the task and in the session store. */
  lemma OutcomeTells(cfg: Config, s: State, run: RunId, outcome: Outcome)
    requires Inv(cfg, s) && Enabled(s, CallEnd(run, outcome))
    ensures var t := EndCall(cfg, s, run, outcome);
            && Inv(cfg, t) && run in t.tasks && (t.tasks[run].phase.SecondCall? || t.tasks[run].phase.Finished?)
            && OutcomeFits(s.tasks[run], outcome, t.tasks[run].phase)
            && var task, phase := s.tasks[run], t.tasks[run].phase;
               GetState(t.store, task.key) ==
                 if phase.SecondCall? then INVALIDATED
                 else if task.backend == OPENAI && phase.result.status == Completed
                 then SessionState(Some(phase.result.sessionId), Some(OPENAI), true)
                 else GetState(s.store, task.key)
  {
    var phase := CallEndIs(cfg, s, run, outcome);
    CallEndInv(cfg, s, run, outcome);
  }

  // ---- over whole runs ------------------------------------------------

  /** How a run ended: by a cancel, by a rejection, or with the call that came back at step c. */
  datatype Cause = ByCancel | ByReject | ByCall(c: nat)

  /** At c a call of the run comes back, and none after it before k. */
  ghost predicate LastCallAt(states: seq<State>, events: seq<Event>, c: nat, k: nat, run: RunId)
    requires k < |states| == |events| + 1
  {
    && c < k && events[c].CallEnd? && events[c].run == run && run in states[c].tasks && InCall(states[c].tasks[run])
    && forall m | c < m < k :: !(events[m].CallEnd? && events[m].run == run)
  }

  /** Step k ended the run, and for this cause. */
  ghost predicate EndedAt(cfg: Config, states: seq<State>, events: seq<Event>, k: nat, run: RunId, cause: Cause)
    requires k < |events| && |states| == |events| + 1
  {
    var s, t, e := states[k], states[k + 1], events[k];
    && FinalOf(s, run).None? && FinalOf(t, run).Some?
    && match cause
       case ByCancel => e == CancelEvent(run) && CancelReports(cfg, s, run, t.store.draws, FinalOf(t, run).value)
       case ByReject =>
         && (e.WorkerTurn? || e.WorkerResume?) && run in t.past.known && PlaceOf(t, run) == Rejected
         && RejectReports(cfg, s.store, t.store.draws, t.past.known[run].request, FinalOf(t, run).value)
       case ByCall(c) =>
         && e.WorkerResume? && LastCallAt(states, events, c, k, run)
         && Reports(states[c].tasks[run], events[c].outcome, FinalOf(t, run).value)
  }

  /** How a step bears on a task that is done with its calls: a call of it comes back now, or nothing happens to it. */
  ghost predicate FinishedBy(s: State, e: Event, t: State, run: RunId) {
    run in t.tasks && t.tasks[run].phase.Finished? ==>
      && run in s.tasks
      && if e.CallEnd? && e.run == run
         then InCall(s.tasks[run]) && Reports(s.tasks[run], e.outcome, t.tasks[run].phase.result)
         else s.tasks[run].phase == t.tasks[run].phase
  }

  lemma StepFinishes(cfg: Config, s: State, e: Event, run: RunId)
    requires Inv(cfg, s) && Enabled(s, e)
    ensures FinishedBy(s, e, Apply(cfg, s, e), run)
  {
    if !IsTaskEvent(e) {
      OtherEventsAreQuiet(cfg, s, e);
    } else if e.CallEnd? {
      var phase := CallEndIs(cfg, s, e.run, e.outcome);
    }
  }

  lemma RunStepFinishes(cfg: Config, states: seq<State>, events: seq<Event>, j: nat, run: RunId)
    requires IsRun(cfg, states, events) && j < |events|
    ensures FinishedBy(states[j], events[j], states[j + 1], run)
  {
    RunInv(cfg, states, events, j);
    assert Enabled(states[j], events[j]) && states[j + 1] == Apply(cfg, states[j], events[j]);
    StepFinishes(cfg, states[j], events[j], run);
  }

  /** A finished task has the report of its last call. */
  lemma {:induction false} LastCallOf(cfg: Config, states: seq<State>, events: seq<Event>, k: nat, run: RunId)
      returns (c: nat)
    requires IsRun(cfg, states, events) && k < |states|
    requires run in states[k].tasks && states[k].tasks[run].phase.Finished?
    ensures LastCallAt(states, events, c, k, run)
    ensures Reports(states[c].tasks[run], events[c].outcome, states[k].tasks[run].phase.result)
    decreases k
  {
    NoTasksAtFirst(cfg, states, events);
    RunStepFinishes(cfg, states, events, k - 1, run);
    if events[k - 1].CallEnd? && events[k - 1].run == run {
      return k - 1;
    }
    c := LastCallOf(cfg, states, events, k - 1, run);
  }

  lemma NoTasksAtFirst(cfg: Config, states: seq<State>, events: seq<Event>)
    requires IsRun(cfg, states, events)
    ensures states[0].tasks == map[] && states[0].past.finishedAt == map[]
  {
  }

  /** What a step can end a run with. */
  ghost predicate EndsWith(cfg: Config, s: State, e: Event, t: State, run: RunId) {
    FinalOf(s, run).None? && FinalOf(t, run).Some? ==>
      || (e == CancelEvent(run) && CancelReports(cfg, s, run, t.store.draws, FinalOf(t, run).value))
      || ((e.WorkerTurn? || e.WorkerResume?) && EndsRejected(cfg, s, t, run))
      || (e.WorkerResume? && run in s.tasks && s.tasks[run].phase.Finished?
          && FinalOf(t, run).value == s.tasks[run].phase.result)
  }

  lemma ResumeEnds(cfg: Config, s: State, group: string, run: RunId)
    requires Inv(cfg, s) && Enabled(s, WorkerResume(group))
    ensures EndsWith(cfg, s, WorkerResume(group), Apply(cfg, s, WorkerResume(group)), run)
  {
    var u := FinishRun(cfg, s, group);
    FinishInv(cfg, s, group);
    FinishEnds(cfg, s, group, run);
    TurnGrows(cfg, u, group);
    if FinalOf(u, run).Some? {
      TurnInv(cfg, u, group);
      assert FinalOf(Turn(cfg, u, group), run) == FinalOf(u, run) by {
        EndedStays(cfg, u, Turn(cfg, u, group), run);
      }
    } else {
      TurnEnds(cfg, u, group, run);
      FinishIsQuiet(cfg, s, group);
      RejectedFor(cfg, s, u, Turn(cfg, u, group), run);
    }
  }

  lemma EndedStays(cfg: Config, s: State, t: State, run: RunId)
    requires Inv(cfg, s) && Grows(s.past, t.past) && FinalOf(s, run).Some?
    ensures FinalOf(t, run) == FinalOf(s, run)
  {
  }

  lemma RejectedFor(cfg: Config, s: State, u: State, t: State, run: RunId)
    requires Quiet(cfg, s, u) && FinalOf(u, run).None? && EndsRejected(cfg, u, t, run)
    ensures EndsRejected(cfg, s, t, run)
  {
    if FinalOf(t, run).Some? {
      var key := KeyOf(t.past.known[run].request);
      assert GetState(u.store, key) == GetState(s.store, key);
    }
  }

  lemma StepEnds(cfg: Config, s: State, e: Event, run: RunId)
    requires Inv(cfg, s) && Enabled(s, e)
    ensures EndsWith(cfg, s, e, Apply(cfg, s, e), run)
  {
    match e
    case SubmitEvent(_, _) =>
    case WorkerTurn(group) => TurnEnds(cfg, s, group, run);
    case WorkerResume(group) => ResumeEnds(cfg, s, group, run);
    case TaskBegin(_) =>
    case CallEnd(other, outcome) => var phase := CallEndMoves(cfg, s, other, outcome);
    case TaskUnwind(_) =>
    case CancelEvent(other) =>
      if FinalOf(s, run).None? && FinalOf(Cancel(cfg, s, other), run).Some? {
        CancelEndsWith(cfg, s, other, run);
      }
    case WaiterCancelled(_) =>
  }

  lemma CauseOf(cfg: Config, states: seq<State>, events: seq<Event>, k: nat, run: RunId) returns (cause: Cause)
    requires IsRun(cfg, states, events) && k < |events|
    requires FinalOf(states[k], run).None? && FinalOf(states[k + 1], run).Some?
    ensures EndedAt(cfg, states, events, k, run, cause)
  {
    RunInv(cfg, states, events, k);
    assert Enabled(states[k], events[k]) && states[k + 1] == Apply(cfg, states[k], events[k]);
    StepEnds(cfg, states[k], events[k], run);
    if events[k] == CancelEvent(run) {
      return ByCancel;
    }
    if EndsRejected(cfg, states[k], states[k + 1], run) {
      return ByReject;
    }
    var c := LastCallOf(cfg, states, events, k, run);
    cause := ByCall(c);
  }

  /**
   Main result: every run that has ended was ended by exactly one step, and its
   result is the report of its last backend call, unless a cancel ended it or
   no backend could be selected for it.
   */
  lemma {:induction false} ResultExplained(cfg: Config, states: seq<State>, events: seq<Event>, j: nat, run: RunId)
      returns (k: nat, cause: Cause)
    requires IsRun(cfg, states, events) && j < |states| && StageOf(states[j], run).Ended?
    ensures k < j && EndedAt(cfg, states, events, k, run, cause)
    ensures StageOf(states[k + 1], run) == StageOf(states[j], run)
    ensures run in states[j].past.known && (cause.ByReject? ==> PlaceOf(states[j], run) == Rejected)
    ensures cause.ByCancel? ==> StageOf(states[k], run).InQueue? || StageOf(states[k], run).InProgress?
    decreases j
  {
    NoTasksAtFirst(cfg, states, events);
    RunInv(cfg, states, events, j - 1);
    RunGrows(cfg, states, events, j - 1, j);
    if FinalOf(states[j - 1], run).Some? {
      EndedStays(cfg, states[j - 1], states[j], run);
      EndedIsKnown(cfg, states[j - 1], run);
      k, cause := ResultExplained(cfg, states, events, j - 1, run);
      PlacesStay(states[j - 1], states[j], run);
    } else {
      k := j - 1;
      cause := CauseOf(cfg, states, events, k, run);
      assert RunOk(cfg, run, View(states[k], run));
    }
  }

  lemma PlacesStay(s: State, t: State, run: RunId)
    requires Grows(s.past, t.past) && run in s.past.known
    ensures run in t.past.known && (PlaceOf(s, run) == Rejected ==> PlaceOf(t, run) == Rejected)
  {
    var group := s.past.known[run].request.group;
    assert At(s.past.popped, group) <= At(t.past.popped, group);
  }

  lemma EndedIsKnown(cfg: Config, s: State, run: RunId)
    requires Inv(cfg, s) && FinalOf(s, run).Some?
    ensures StageOf(s, run) == Ended(FinalOf(s, run).value)
  {
    UnknownNotFinished(cfg, s, run);
  }

  /**
   Main result: a run that started, and that nobody cancelled through the
   coordinator while it was queued or in progress, ends with exactly what its
   last backend call reported.
   */
  lemma UncancelledEndsWithLastCall(cfg: Config, states: seq<State>, events: seq<Event>, j: nat, run: RunId)
      returns (k: nat, c: nat)
    requires IsRun(cfg, states, events) && j < |states| && StageOf(states[j], run).Ended?
    requires PlaceOf(states[j], run) == Started
    requires forall m | 0 <= m < j && events[m] == CancelEvent(run) ::
               StageOf(states[m], run).Absent? || StageOf(states[m], run).Ended?
    ensures k < j && LastCallAt(states, events, c, k, run)
    ensures Reports(states[c].tasks[run], events[c].outcome, StageOf(states[j], run).result)
    ensures StageOf(states[j], run).result.run == run
  {
    var cause;
    k, cause := ResultExplained(cfg, states, events, j, run);
    RunInv(cfg, states, events, j);
    assert RunOk(cfg, run, View(states[j], run));
    assert cause.ByCall?;
    c := cause.c;
  }
}
