/** Every step of the coordinator preserves the invariant. */
module CoordinatorPreservation {
  import opened Wrappers
  import opened Execution
  import opened WorkspaceLifecycle
  import opened CoordinatorSteps
  import opened CoordinatorInvariant

  // ---- popping the head of a queue ------------------------------------

  /** The head of a queue is the run whose index is the number of popped entries. */
  lemma HeadIsNext(cfg: Config, s: State, group: string)
    requires Inv(cfg, s) && At(s.queues, group) != []
    ensures var entry := At(s.queues, group)[0];
            && entry.request.group == group
            && Lookup(s.past.known, entry.run) == Some(Known(entry.request, |At(s.past.popped, group)|))
  {
    var v := ViewGroup(s, group);
    assert GroupOk(v);
    assert v.queue[0] == At(s.past.submitted, group)[|v.popped|];
  }

  lemma LogPopView(s: State, group: string, place: Place, other: RunId)
    requires At(s.queues, group) != [] && other != At(s.queues, group)[0].run
    requires var entry := At(s.queues, group)[0];
             && entry.request.group == group && Listed(s, entry.run)
             && s.past.known[entry.run] == Known(entry.request, |At(s.past.popped, group)|)
    requires other in s.past.known ==> Listed(s, other)
    ensures View(LogPop(s, At(s.queues, group)[0], group, place), other) == View(s, other)
  {
  }

  lemma LogPopGroup(s: State, group: string, place: Place)
    requires GroupOk(ViewGroup(s, group)) && At(s.queues, group) != [] && place != Waiting
    ensures GroupOk(ViewGroup(LogPop(s, At(s.queues, group)[0], group, place), group))
  {
  }

  /** Popping an entry changes only the place of its run. */
  lemma LogPopEffect(cfg: Config, s: State, group: string, place: Place)
    requires Inv(cfg, s) && At(s.queues, group) != [] && place != Waiting
    ensures var entry := At(s.queues, group)[0];
            var t := LogPop(s, entry, group, place);
            && Touches(s, t, entry.run, group)
            && View(t, entry.run) == View(s, entry.run).(place := place)
            && View(s, entry.run).place == Waiting
            && GroupOk(ViewGroup(t, group))
            && ViewGroup(t, group).worker == ViewGroup(s, group).worker
  {
    var entry := At(s.queues, group)[0];
    var t := LogPop(s, entry, group, place);
    HeadIsNext(cfg, s, group);
    assert GroupOk(ViewGroup(s, group)) && RunOk(cfg, entry.run, View(s, entry.run));
    LogPopGroup(s, group, place);
    forall other | other != entry.run ensures View(t, other) == View(s, other) {
      assert RunOk(cfg, other, View(s, other));
      LogPopView(s, group, place, other);
    }
    assert At(t.past.popped, group) == At(s.past.popped, group) + [Pop(entry, place)];
  }

  /** A popped entry whose future is gone or was abandoned is passed over. */
  lemma PassOverInv(cfg: Config, s: State, group: string)
    requires Inv(cfg, s) && At(s.queues, group) != []
    requires var place := PlaceFor(cfg, s, At(s.queues, group)[0]); place == Skipped || place == Dropped
    ensures Inv(cfg, PopHead(cfg, s, group))
  {
    var entry := At(s.queues, group)[0];
    var place := PlaceFor(cfg, s, entry);
    HeadIsNext(cfg, s, group);
    LogPopEffect(cfg, s, group, place);
    assert RunOk(cfg, entry.run, View(s, entry.run));
    OneRunStep(cfg, s, LogPop(s, entry, group, place), entry.run, group);
  }

  /** A live, waiting run whose future exists may be given any terminal result that fits its place. */
  lemma StoredOk(cfg: Config, run: RunId, v: RunView, place: Place, result: Result)
    requires RunOk(cfg, run, v) && v.known.Some? && v.place == Waiting && v.future.Some?
    requires result.run == run
    requires || (place == Waiting && result.status == Cancelled)
             || (place == Rejected && result.status == Failed && !Selectable(cfg, v.known.value.request))
    ensures RunOk(cfg, run, Stored(v.(place := place), result))
  {
  }

  lemma RejectInv(cfg: Config, s: State, group: string, backend: string, slot: string, error: string)
    requires Inv(cfg, s) && At(s.queues, group) != []
    requires At(s.queues, group)[0].run in s.futures && !Selectable(cfg, At(s.queues, group)[0].request)
    ensures var entry := At(s.queues, group)[0];
            Inv(cfg, RejectEntry(cfg, LogPop(s, entry, group, Rejected), entry, backend, slot, error))
  {
    var entry := At(s.queues, group)[0];
    var t := LogPop(s, entry, group, Rejected);
    var peek := Peek(cfg, t, entry.request, backend);
    var u := t.(store := peek.store, adHocDraws := peek.adHocDraws);
    var result := PlainResult(entry.run, entry.request, backend, peek.sessionId, Failed, Some(error)).(slot := slot);
    HeadIsNext(cfg, s, group);
    LogPopEffect(cfg, s, group, Rejected);
    assert RunOk(cfg, entry.run, View(s, entry.run));
    UnknownNotFinished(cfg, s, entry.run);
    StoredOk(cfg, entry.run, View(s, entry.run), Rejected, result);
    PeekInvisible(t, peek.store, peek.adHocDraws);
    StoreStep(cfg, s, u, result, group);
  }

  /** The invariant does not look at the session store or the ad hoc draw counter. */
  lemma PeekInvisible(s: State, store: Store, draws: nat)
    ensures var t := s.(store := store, adHocDraws := draws);
            && (forall run {:trigger View(t, run)} :: View(t, run) == View(s, run))
            && (forall g {:trigger ViewGroup(t, g)} :: ViewGroup(t, g) == ViewGroup(s, g))
  {
  }

  // ---- starting a run -------------------------------------------------

  lemma StartView(cfg: Config, s: State, entry: Entry, backend: string, other: RunId)
    requires other != entry.run
    requires entry.request.group in s.workers && s.workers[entry.request.group].Ready?
    ensures View(StartEntry(cfg, s, entry, backend), other) == View(s, other)
  {
  }

  lemma StartTouches(cfg: Config, s: State, entry: Entry, backend: string)
    requires entry.request.group in s.workers && s.workers[entry.request.group].Ready?
    ensures Touches(s, StartEntry(cfg, s, entry, backend), entry.run, entry.request.group)
  {
    var t := StartEntry(cfg, s, entry, backend);
    forall other | other != entry.run ensures View(t, other) == View(s, other) {
      StartView(cfg, s, entry, backend, other);
    }
  }

  lemma StartCache(cfg: Config, s: State, entry: Entry, backend: string)
    requires CacheOk(cfg.maxCompleted, s) && entry.run in s.requests
    ensures CacheOk(cfg.maxCompleted, StartEntry(cfg, s, entry, backend))
  {
    var t := StartEntry(cfg, s, entry, backend);
    forall run ensures RowOk(t.past.terminals, t.past.finishedAt, t.requests, CacheOf(t), run) {
      assert RowOk(s.past.terminals, s.past.finishedAt, s.requests, CacheOf(s), run);
    }
  }

  lemma StartLocal(cfg: Config, s: State, entry: Entry, backend: string)
    requires entry.run in s.past.known && s.past.known[entry.run].request == entry.request
    requires cfg.policy(entry.request) == Selected(backend) && backend in cfg.backends
    requires View(s, entry.run).place == Started
    requires RunOk(cfg, entry.run, View(s, entry.run).(place := Waiting))
    requires entry.run in s.requests
    ensures RunOk(cfg, entry.run, View(StartEntry(cfg, s, entry, backend), entry.run))
  {
  }

  lemma StartStep(cfg: Config, s: State, t: State, entry: Entry, backend: string)
    requires Inv(cfg, s) && Touches(s, t, entry.run, entry.request.group)
    requires entry.request.group in t.workers && t.workers[entry.request.group].Ready?
    requires t.past.known == s.past.known && t.past.submitted == s.past.submitted
    requires WorkersOk(t.past.known, t.tasks, t.workers) && CacheOk(cfg.maxCompleted, t)
    requires GroupOk(ViewGroup(t, entry.request.group)) && entry.run in t.requests
    requires entry.run in t.past.known && t.past.known[entry.run].request == entry.request
    requires cfg.policy(entry.request) == Selected(backend) && backend in cfg.backends
    requires View(t, entry.run).place == Started && RunOk(cfg, entry.run, View(t, entry.run).(place := Waiting))
    ensures Inv(cfg, StartEntry(cfg, t, entry, backend))
  {
    var u := StartEntry(cfg, t, entry, backend);
    StartTouches(cfg, t, entry, backend);
    StartCache(cfg, t, entry, backend);
    StartLocal(cfg, t, entry, backend);
    assert Touches(s, u, entry.run, entry.request.group);
    assert GroupOk(ViewGroup(u, entry.request.group));
    OneRunStep(cfg, s, u, entry.run, entry.request.group);
  }

  lemma StartInv(cfg: Config, s: State, group: string, backend: string)
    requires Inv(cfg, s) && At(s.queues, group) != []
    requires group in s.workers && s.workers[group].Ready?
    requires var entry := At(s.queues, group)[0];
             && entry.run in s.futures
             && cfg.policy(entry.request) == Selected(backend) && backend in cfg.backends
    ensures var entry := At(s.queues, group)[0];
            Inv(cfg, StartEntry(cfg, LogPop(s, entry, group, Started), entry, backend))
  {
    var entry := At(s.queues, group)[0];
    var t := LogPop(s, entry, group, Started);
    HeadIsNext(cfg, s, group);
    LogPopEffect(cfg, s, group, Started);
    assert RunOk(cfg, entry.run, View(s, entry.run));
    StartStep(cfg, s, t, entry, backend);
  }

  // ---- a whole turn ---------------------------------------------------

  lemma PopHeadInv(cfg: Config, s: State, group: string)
    requires Inv(cfg, s) && At(s.queues, group) != []
    requires group in s.workers && s.workers[group].Ready?
    ensures Inv(cfg, PopHead(cfg, s, group))
  {
    var entry := At(s.queues, group)[0];
    var place := PlaceFor(cfg, s, entry);
    if place == Skipped || place == Dropped {
      PassOverInv(cfg, s, group);
    } else {
      match cfg.policy(entry.request)
      case Raised(message) => RejectInv(cfg, s, group, "unknown", entry.request.slot, message);
      case Selected(backend) =>
        if backend in cfg.backends {
          StartInv(cfg, s, group, backend);
        } else {
          RejectInv(cfg, s, group, backend, "main", "unknown execution backend: " + backend);
        }
    }
  }

  lemma PopHeadKeepsWorker(cfg: Config, s: State, group: string)
    requires At(s.queues, group) != [] && group in s.workers
    ensures group in PopHead(cfg, s, group).workers
  {
    var entry := At(s.queues, group)[0];
    var t := LogPop(s, entry, group, PlaceFor(cfg, s, entry));
    match cfg.policy(entry.request)
    case Raised(message) => RejectKeepsQueues(cfg, t, entry, "unknown", entry.request.slot, message);
    case Selected(backend) =>
      RejectKeepsQueues(cfg, t, entry, backend, "main", "unknown execution backend: " + backend);
  }

  lemma RetireInv(cfg: Config, s: State, group: string)
    requires Inv(cfg, s) && At(s.queues, group) == []
    requires group in s.workers && s.workers[group].Ready?
    ensures Inv(cfg, RetireWorker(s, group))
  {
    var t := RetireWorker(s, group);
    forall run ensures RunOk(cfg, run, View(t, run)) {
      assert RunOk(cfg, run, View(s, run));
      assert View(t, run) == View(s, run);
    }
    forall g ensures GroupOk(ViewGroup(t, g)) {
      assert GroupOk(ViewGroup(s, g));
    }
  }

  lemma {:induction false} TurnInv(cfg: Config, s: State, group: string)
    requires Inv(cfg, s)
    requires group in s.workers && s.workers[group].Ready?
    ensures Inv(cfg, Turn(cfg, s, group))
    decreases |At(s.queues, group)|
  {
    if At(s.queues, group) == [] {
      RetireInv(cfg, s, group);
    } else {
      var t := PopHead(cfg, s, group);
      PopHeadInv(cfg, s, group);
      PopHeadShortens(cfg, s, group);
      PopHeadKeepsWorker(cfg, s, group);
      if t.workers[group].Ready? {
        TurnInv(cfg, t, group);
      }
    }
  }

  // ---- the worker resumes ---------------------------------------------

  lemma ReleaseTouches(s: State, run: RunId, group: string)
    requires group in s.workers && s.workers[group] == Awaiting(run)
    ensures Touches(s, Release(s, run, group), run, group)
  {
  }

  lemma ReleaseWorkers(s: State, run: RunId, group: string)
    requires WorkersOk(s.past.known, s.tasks, s.workers)
    requires group in s.workers && s.workers[group] == Awaiting(run)
    ensures var t := Release(s, run, group); WorkersOk(t.past.known, t.tasks, t.workers)
  {
  }

  lemma ReleaseLocal(cfg: Config, s: State, run: RunId, group: string)
    requires RunOk(cfg, run, View(s, run)) && run in s.tasks && Done(s.tasks[run])
    requires GroupOk(ViewGroup(s, group)) && group in s.workers
    ensures var t := Release(s, run, group);
            && GroupOk(ViewGroup(t, group))
            && (run in s.cancelled ==> RunOk(cfg, run, View(t, run)))
            && (run !in s.cancelled ==>
                  && s.tasks[run].phase.Finished? && run in s.requests
                  && RunOk(cfg, run, Stored(View(t, run), s.tasks[run].phase.result)))
  {
  }

  lemma FinishInv(cfg: Config, s: State, group: string)
    requires Inv(cfg, s) && Enabled(s, WorkerResume(group))
    ensures Inv(cfg, FinishRun(cfg, s, group))
    ensures var t := FinishRun(cfg, s, group); group in t.workers && t.workers[group].Ready?
  {
    var run := s.workers[group].run;
    var t := Release(s, run, group);
    assert RunOk(cfg, run, View(s, run)) && GroupOk(ViewGroup(s, group));
    UnknownNotFinished(cfg, s, run);
    ReleaseTouches(s, run, group);
    ReleaseWorkers(s, run, group);
    ReleaseLocal(cfg, s, run, group);
    if run in s.cancelled {
      OneRunStep(cfg, s, t, run, group);
    } else {
      StoreStep(cfg, s, t, s.tasks[run].phase.result, group);
    }
  }

  // ---- cancel ---------------------------------------------------------

  lemma AfterPeekEffect(cfg: Config, s: State, request: Request, backend: string)
    ensures var t := AfterPeek(cfg, s, request, backend);
            && (forall run {:trigger View(t, run)} :: View(t, run) == View(s, run))
            && (forall g {:trigger ViewGroup(t, g)} :: ViewGroup(t, g) == ViewGroup(s, g))
  {
  }

  lemma CancelQueuedInv(cfg: Config, s: State, run: RunId)
    requires Inv(cfg, s) && run in s.requests && run in s.statuses && s.statuses[run] == Queued
    ensures Inv(cfg, CancelQueued(cfg, s, run))
  {
    var request := s.requests[run];
    var backend := SafeSelect(cfg, request);
    assert RunOk(cfg, run, View(s, run)) && GroupOk(ViewGroup(s, request.group));
    UnknownNotFinished(cfg, s, run);
    AfterPeekEffect(cfg, s, request, backend);
    StoreStep(cfg, s, AfterPeek(cfg, s, request, backend),
              PlainResult(run, request, backend, Peek(cfg, s, request, backend).sessionId, Cancelled, None),
              request.group);
  }

  lemma MarkedCache(max: nat, s: State, run: RunId)
    requires CacheOk(max, s) && run in s.tasks && run in s.requests
    ensures CacheOk(max, MarkForCancel(s, run))
  {
    var t := MarkForCancel(s, run);
    forall other ensures RowOk(t.past.terminals, t.past.finishedAt, t.requests, CacheOf(t), other) {
      assert RowOk(s.past.terminals, s.past.finishedAt, s.requests, CacheOf(s), other);
    }
  }

  lemma MarkedTouches(s: State, run: RunId, group: string)
    requires run in s.tasks
    ensures Touches(s, MarkForCancel(s, run), run, group)
    ensures ViewGroup(MarkForCancel(s, run), group) == ViewGroup(s, group)
  {
  }

  lemma MarkedLocal(cfg: Config, s: State, run: RunId, result: Result)
    requires run in s.tasks && RunOk(cfg, run, View(s, run)) && run in s.requests
    requires result.run == run && result.status == Cancelled
    ensures RunOk(cfg, run, Stored(View(MarkForCancel(s, run), run), result))
  {
  }

  lemma CancelRunningInv(cfg: Config, s: State, run: RunId)
    requires Inv(cfg, s) && run in s.requests && run in s.tasks
    ensures Inv(cfg, CancelRunning(cfg, s, run))
  {
    var request := s.requests[run];
    var t := AfterPeek(cfg, s, request, SafeSelect(cfg, request));
    AfterPeekEffect(cfg, s, request, SafeSelect(cfg, request));
    assert RunOk(cfg, run, View(s, run)) && GroupOk(ViewGroup(s, request.group));
    UnknownNotFinished(cfg, s, run);
    MarkedCache(cfg.maxCompleted, t, run);
    MarkedTouches(t, run, request.group);
    MarkedLocal(cfg, t, run, CancelResult(cfg, s, run));
    StoreStep(cfg, s, MarkForCancel(t, run), CancelResult(cfg, s, run), request.group);
  }

  /** Cancel never finds a queued or running run it cannot cancel. */
  lemma CancelAlwaysPossible(cfg: Config, s: State, run: RunId)
    requires Inv(cfg, s)
    ensures CanCancel(s, run) <==> run in s.statuses && (s.statuses[run] == Queued || s.statuses[run] == Running)
  {
    assert RunOk(cfg, run, View(s, run));
    assert RowOk(s.past.terminals, s.past.finishedAt, s.requests, CacheOf(s), run);
  }

  // ---- the execution task ---------------------------------------------

  /** A task moves to another phase; only session ids, recovery marks, the store and the call log may change with it. */
  ghost predicate PhaseMove(s: State, t: State, run: RunId, phase: Phase) {
    && run in s.tasks
    && t.tasks == s.tasks[run := s.tasks[run].(phase := phase)]
    && t.queues == s.queues && t.workers == s.workers && t.futures == s.futures && t.requests == s.requests
    && t.statuses == s.statuses && t.runningBackends == s.runningBackends && t.cancelled == s.cancelled
    && t.results == s.results && t.order == s.order
    && t.past == s.past.(calls := t.past.calls)
    && (forall other | other != run :: Lookup(t.sessionIds, other) == Lookup(s.sessionIds, other))
    && run in t.sessionIds
    && (forall other | other != run :: At(t.past.calls, other) == At(s.past.calls, other))
    && (forall other :: other in t.snapshots <==> other in s.snapshots)
    && (forall other | other in s.snapshots && other != run :: t.snapshots[other] == s.snapshots[other])
    && (run in s.snapshots ==> SameFace(s.snapshots[run], t.snapshots[run]))
  }

  /** A phase in which the backend is called logs that call, and shows its id; every other phase does neither. */
  ghost predicate CallsFit(s: State, t: State, run: RunId, phase: Phase)
    requires run in s.tasks
  {
    var task := s.tasks[run];
    match phase
    case Scheduled => false
    case FirstCall =>
      && task.phase.Scheduled? && t.sessionIds == s.sessionIds
      && At(t.past.calls, run) == At(s.past.calls, run) + [task.sessionId]
    case SecondCall(retryId) =>
      && task.phase.FirstCall? && ShouldRetry(task, true)
      && At(t.past.calls, run) == At(s.past.calls, run) + [retryId] && Lookup(t.sessionIds, run) == Some(retryId)
    case _ => At(t.past.calls, run) == At(s.past.calls, run) && t.sessionIds == s.sessionIds
  }

  lemma PhaseMoveView(s: State, t: State, run: RunId, phase: Phase, other: RunId)
    requires PhaseMove(s, t, run, phase) && other != run
    ensures View(t, other) == View(s, other)
  {
  }

  lemma PhaseMoveTouches(s: State, t: State, run: RunId, phase: Phase, group: string)
    requires PhaseMove(s, t, run, phase)
    ensures Touches(s, t, run, group) && ViewGroup(t, group) == ViewGroup(s, group)
  {
    forall other | other != run ensures View(t, other) == View(s, other) {
      PhaseMoveView(s, t, run, phase, other);
    }
  }

  lemma PhaseMoveCache(max: nat, s: State, t: State, run: RunId, phase: Phase)
    requires PhaseMove(s, t, run, phase) && CacheOk(max, s)
    ensures CacheOk(max, t)
  {
    forall other ensures RowOk(t.past.terminals, t.past.finishedAt, t.requests, CacheOf(t), other) {
      assert RowOk(s.past.terminals, s.past.finishedAt, s.requests, CacheOf(s), other);
    }
  }

  lemma PhaseMoveLocal(cfg: Config, s: State, t: State, run: RunId, phase: Phase)
    requires PhaseMove(s, t, run, phase) && !Done(s.tasks[run]) && RunOk(cfg, run, View(s, run))
    requires phase.Unwound? ==> s.tasks[run].cancelRequested
    requires phase.Finished? ==> phase.result.run == run && IsTerminal(phase.result.status)
    requires CallsFit(s, t, run, phase)
    ensures RunOk(cfg, run, View(t, run))
  {
  }

  lemma PhaseMoveInv(cfg: Config, s: State, t: State, run: RunId, phase: Phase)
    requires Inv(cfg, s) && PhaseMove(s, t, run, phase) && !Done(s.tasks[run])
    requires phase.Unwound? ==> s.tasks[run].cancelRequested
    requires phase.Finished? ==> phase.result.run == run && IsTerminal(phase.result.status)
    requires CallsFit(s, t, run, phase)
    ensures Inv(cfg, t)
  {
    assert RunOk(cfg, run, View(s, run));
    var group := s.tasks[run].request.group;
    assert GroupOk(ViewGroup(s, group));
    PhaseMoveTouches(s, t, run, phase, group);
    PhaseMoveCache(cfg.maxCompleted, s, t, run, phase);
    PhaseMoveLocal(cfg, s, t, run, phase);
    OneRunStep(cfg, s, t, run, group);
  }

  /** A phase an outcome may leave a task in. */
  predicate Plausible(run: RunId, phase: Phase) {
    phase.SecondCall? || (phase.Finished? && phase.result.run == run && IsTerminal(phase.result.status))
  }

  lemma RetryMoves(cfg: Config, s: State, run: RunId, message: string)
    requires run in s.tasks && run in s.sessionIds
    requires s.tasks[run].phase.FirstCall? && ShouldRetry(s.tasks[run], true)
    ensures var t := RetryTask(cfg, s, run, message);
            && PhaseMove(s, t, run, t.tasks[run].phase) && t.tasks[run].phase.SecondCall?
            && CallsFit(s, t, run, t.tasks[run].phase)
  {
    var retryId := RetryTask(cfg, s, run, message).tasks[run].phase.retryId;
    MarksKeepFace(s.snapshots, run, message, true);
    CallLogged(s.past, run, retryId);
  }

  /** Recovery marks leave everything else in every snapshot alone. */
  predicate OnlyMarks(snapshots: map<RunId, Snapshot>, run: RunId, marked: map<RunId, Snapshot>) {
    && marked.Keys == snapshots.Keys
    && (forall other | other in snapshots && other != run :: marked[other] == snapshots[other])
    && (run in snapshots ==> SameFace(snapshots[run], marked[run]))
  }

  lemma MarksKeepFace(snapshots: map<RunId, Snapshot>, run: RunId, reason: string, succeeded: bool)
    ensures OnlyMarks(snapshots, run, MarkRecoveryAttempt(snapshots, run, reason))
    ensures OnlyMarks(snapshots, run, MarkRecoveryResult(snapshots, run, succeeded))
  {
  }

  lemma CallLogged(past: History, run: RunId, sessionId: string)
    ensures var t := LogCall(past, run, sessionId);
            && t == past.(calls := t.calls)
            && At(t.calls, run) == At(past.calls, run) + [sessionId]
            && forall other | other != run :: At(t.calls, other) == At(past.calls, other)
  {
  }

  lemma ConcludeMoves(s: State, run: RunId, result: Result)
    requires run in s.tasks && run in s.sessionIds
    ensures PhaseMove(s, ConcludeTask(s, run, result), run, Finished(result))
  {
  }

  lemma EndFirstMoves(cfg: Config, s: State, run: RunId, outcome: Outcome) returns (phase: Phase)
    requires run in s.tasks && run in s.sessionIds && WellFormed(run, outcome) && s.tasks[run].phase.FirstCall?
    ensures var t := EndFirstCall(cfg, s, run, outcome);
            PhaseMove(s, t, run, phase) && CallsFit(s, t, run, phase) && Plausible(run, phase)
  {
    var task := s.tasks[run];
    if !outcome.RuntimeRaised? {
      var result := CallResult(run, task, task.sessionId, outcome);
      ConcludeMoves(s, run, result);
      phase := Finished(result);
    } else if ShouldRetry(task, outcome.resumeFailed) {
      RetryMoves(cfg, s, run, outcome.message);
      phase := RetryTask(cfg, s, run, outcome.message).tasks[run].phase;
    } else {
      phase := Failure(run, task, task.sessionId, outcome.message);
    }
  }

  lemma EndSecondMoves(s: State, run: RunId, retryId: string, outcome: Outcome) returns (phase: Phase)
    requires run in s.tasks && run in s.sessionIds && WellFormed(run, outcome)
    ensures var t := EndSecondCall(s, run, retryId, outcome);
            PhaseMove(s, t, run, phase) && CallsFit(s, t, run, phase) && Plausible(run, phase)
  {
    var task := s.tasks[run];
    var marked := s.(snapshots := MarkRecoveryResult(s.snapshots, run, !outcome.RuntimeRaised?));
    MarksKeepFace(s.snapshots, run, "", !outcome.RuntimeRaised?);
    if !outcome.RuntimeRaised? {
      var result := CallResult(run, task, retryId, outcome);
      ConcludeMoves(marked, run, result);
      phase := Finished(result);
    } else {
      phase := Failure(run, task, retryId, outcome.message);
    }
  }

  lemma CallEndMoves(cfg: Config, s: State, run: RunId, outcome: Outcome) returns (phase: Phase)
    requires Inv(cfg, s) && Enabled(s, CallEnd(run, outcome))
    ensures var t := EndCall(cfg, s, run, outcome);
            PhaseMove(s, t, run, phase) && CallsFit(s, t, run, phase) && Plausible(run, phase)
  {
    assert RunOk(cfg, run, View(s, run));
    if s.tasks[run].phase.FirstCall? {
      phase := EndFirstMoves(cfg, s, run, outcome);
    } else {
      phase := EndSecondMoves(s, run, s.tasks[run].phase.retryId, outcome);
    }
  }

  lemma CallEndInv(cfg: Config, s: State, run: RunId, outcome: Outcome)
    requires Inv(cfg, s) && Enabled(s, CallEnd(run, outcome))
    ensures Inv(cfg, EndCall(cfg, s, run, outcome))
  {
    var phase := CallEndMoves(cfg, s, run, outcome);
    PlausibleInv(cfg, s, EndCall(cfg, s, run, outcome), run, phase);
  }

  lemma PlausibleInv(cfg: Config, s: State, t: State, run: RunId, phase: Phase)
    requires Inv(cfg, s) && PhaseMove(s, t, run, phase) && InCall(s.tasks[run])
    requires CallsFit(s, t, run, phase) && Plausible(run, phase)
    ensures Inv(cfg, t)
  {
    PhaseMoveInv(cfg, s, t, run, phase);
  }

  // ---- every step -----------------------------------------------------

  lemma BeginMoves(s: State, run: RunId)
    requires run in s.tasks && run in s.sessionIds
    ensures PhaseMove(s, BeginTask(s, run), run, FirstCall)
  {
    CallLogged(s.past, run, s.tasks[run].sessionId);
  }

  lemma UnwindMoves(s: State, run: RunId)
    requires run in s.tasks && run in s.sessionIds
    ensures PhaseMove(s, UnwindTask(s, run), run, Unwound)
  {
  }

  lemma BeginInv(cfg: Config, s: State, run: RunId)
    requires Inv(cfg, s) && Enabled(s, TaskBegin(run))
    ensures Inv(cfg, BeginTask(s, run))
  {
    assert RunOk(cfg, run, View(s, run));
    PhaseMoveInv(cfg, s, BeginTask(s, run), run, FirstCall);
  }

  lemma UnwindInv(cfg: Config, s: State, run: RunId)
    requires Inv(cfg, s) && Enabled(s, TaskUnwind(run))
    ensures Inv(cfg, UnwindTask(s, run))
  {
    assert RunOk(cfg, run, View(s, run));
    PhaseMoveInv(cfg, s, UnwindTask(s, run), run, Unwound);
  }

  lemma CancelInv(cfg: Config, s: State, run: RunId)
    requires Inv(cfg, s)
    ensures Inv(cfg, Cancel(cfg, s, run))
  {
    if CanCancel(s, run) {
      if s.statuses[run] == Queued {
        CancelQueuedInv(cfg, s, run);
      } else {
        CancelRunningInv(cfg, s, run);
      }
    }
  }

  lemma StepInv(cfg: Config, s: State, e: Event)
    requires Inv(cfg, s) && Enabled(s, e)
    ensures Inv(cfg, Apply(cfg, s, e))
  {
    match e
    case SubmitEvent(run, request) => SubmitInv(cfg, s, run, request);
    case WorkerTurn(group) => TurnInv(cfg, s, group);
    case TaskBegin(run) => BeginInv(cfg, s, run);
    case CallEnd(run, outcome) => CallEndInv(cfg, s, run, outcome);
    case TaskUnwind(run) => UnwindInv(cfg, s, run);
    case WorkerResume(group) =>
      FinishInv(cfg, s, group);
      TurnInv(cfg, FinishRun(cfg, s, group), group);
    case CancelEvent(run) => CancelInv(cfg, s, run);
    case WaiterCancelled(run) => AbandonInv(cfg, s, run);
  }
}
