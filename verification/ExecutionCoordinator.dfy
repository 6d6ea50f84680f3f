/**
 The coordinator object of services/execution_coordinator.py: the fields of the
 source, updated in place. Each method is the code between two suspension
 points and is proved to do exactly what the corresponding step function does;
 what the steps keep over whole runs is proved about those functions.
 */
module ExecutionCoordinator {
  import opened Wrappers
  import opened Execution
  import opened WorkspaceLifecycle
  import opened CoordinatorSteps
  import opened CoordinatorInvariant
  import opened CoordinatorPreservation
  import opened CoordinatorHistory
  import opened CoordinatorSessions
  import opened CoordinatorResults
  import opened CoordinatorReports

  datatype MonitorGroup = MonitorGroup(
    queued: nat, running: nat, activeRun: Option<RunId>, activeBackend: Option<string>)

  const NO_RUNS := MonitorGroup(0, 0, None, None)

  function GroupRow(groups: map<string, MonitorGroup>, group: string): MonitorGroup {
    if group in groups then groups[group] else NO_RUNS
  }

  function ActiveBackend(snapshots: map<RunId, Snapshot>, run: RunId): Option<string> {
    if run in snapshots then snapshots[run].backend else None
  }

  /** A monitor row counts the given live runs of its group, and names one that is running if there is any. */
  ghost predicate Tallies(s: State, runs: set<RunId>, group: string, row: MonitorGroup) {
    && row.queued == |runs * LiveWith(s, group, Queued)|
    && row.running == |runs * LiveWith(s, group, Running)|
    && (row.activeRun.None? <==> row.running == 0)
    && (row.activeRun.None? ==> row.activeBackend == None)
    && (row.activeRun.Some? ==>
          && row.activeRun.value in runs * LiveWith(s, group, Running)
          && row.activeBackend == ActiveBackend(s.snapshots, row.activeRun.value))
  }

  /** The step of the monitor's loop: one more live run is looked at. */
  function CountRun(s: State, row: MonitorGroup, run: RunId): MonitorGroup {
    if Lookup(s.statuses, run) == Some(Queued) then row.(queued := row.queued + 1)
    else if Lookup(s.statuses, run) == Some(Running) then
      row.(running := row.running + 1, activeRun := Some(run), activeBackend := ActiveBackend(s.snapshots, run))
    else row
  }

  lemma CountRunTallies(s: State, runs: set<RunId>, run: RunId, group: string, row: MonitorGroup)
    requires Tallies(s, runs, group, row) && run !in runs && run in s.requests
    ensures Tallies(s, runs + {run}, group, if s.requests[run].group == group then CountRun(s, row, run) else row)
  {
    var queued, running := LiveWith(s, group, Queued), LiveWith(s, group, Running);
    if run in queued {
      assert (runs + {run}) * queued == runs * queued + {run};
    } else {
      assert (runs + {run}) * queued == runs * queued;
    }
    if run in running {
      assert (runs + {run}) * running == runs * running + {run};
    } else {
      assert (runs + {run}) * running == runs * running;
    }
  }

  /** Every live run is queued or running. */
  ghost predicate AllShown(s: State) {
    forall run | run in s.requests :: Lookup(s.statuses, run) in {Some(Queued), Some(Running)}
  }

  lemma LiveStatuses(cfg: Config, s: State)
    requires Inv(cfg, s)
    ensures AllShown(s)
  {
    forall run | run in s.requests ensures Lookup(s.statuses, run) in {Some(Queued), Some(Running)} {
      assert RunOk(cfg, run, View(s, run));
    }
  }

  /** The monitor's rows after it looked at the given live runs: one true row per group that has any. */
  ghost predicate AllTallied(s: State, runs: set<RunId>, groups: map<string, MonitorGroup>) {
    && (forall group :: Tallies(s, runs, group, GroupRow(groups, group)))
    && groups.Keys == set run | run in runs && run in s.requests :: s.requests[run].group
  }

  /** The rows after one more live run, which changes its own group's row only. */
  ghost predicate OneMoreRun(s: State, groups: map<string, MonitorGroup>, run: RunId, next: map<string, MonitorGroup>)
    requires run in s.requests
  {
    && (forall group :: GroupRow(next, group) ==
          if s.requests[run].group == group then CountRun(s, GroupRow(groups, group), run)
          else GroupRow(groups, group))
    && (Lookup(s.statuses, run) in {Some(Queued), Some(Running)} ==>
          next.Keys == groups.Keys + {s.requests[run].group})
  }

  lemma NothingTallied(s: State)
    ensures AllTallied(s, {}, map[])
  {
    forall group, status ensures {} * LiveWith(s, group, status) == {} {
    }
  }

  lemma AllTalliedStep(s: State, runs: set<RunId>, run: RunId, groups: map<string, MonitorGroup>,
                       next: map<string, MonitorGroup>)
    requires AllTallied(s, runs, groups) && run !in runs && run in s.requests
    requires OneMoreRun(s, groups, run, next) && AllShown(s)
    ensures AllTallied(s, runs + {run}, next)
  {
    forall group ensures Tallies(s, runs + {run}, group, GroupRow(next, group)) {
      CountRunTallies(s, runs, run, group, GroupRow(groups, group));
    }
  }

  /** At most one run of a group is running, so the row names it exactly when it is. */
  lemma OnlyRunning(cfg: Config, s: State, group: string, run: RunId, row: MonitorGroup)
    requires Inv(cfg, s) && Tallies(s, s.requests.Keys, group, row)
    ensures row.activeRun == Some(run) <==> run in LiveWith(s, group, Running)
  {
    var running := LiveWith(s, group, Running);
    assert s.requests.Keys * running == running;
    if run in running {
      assert running != {};
      assert row.running > 0;
      MonitorShowsOneRunning(cfg, s, group, run);
      MonitorShowsOneRunning(cfg, s, group, row.activeRun.value);
    }
  }

  lemma AllOnlyRunning(cfg: Config, s: State, groups: map<string, MonitorGroup>)
    requires Inv(cfg, s) && AllTallied(s, s.requests.Keys, groups)
    ensures forall group, run :: GroupRow(groups, group).activeRun == Some(run) <==> run in LiveWith(s, group, Running)
  {
    forall group, run
      ensures GroupRow(groups, group).activeRun == Some(run) <==> run in LiveWith(s, group, Running)
    {
      assert Tallies(s, s.requests.Keys, group, GroupRow(groups, group));
      OnlyRunning(cfg, s, group, run, GroupRow(groups, group));
    }
  }

  /** The backend shown for the running run is the one it runs on. */
  lemma AllNameBackends(cfg: Config, s: State, groups: map<string, MonitorGroup>)
    requires Inv(cfg, s) && AllTallied(s, s.requests.Keys, groups)
    ensures forall group :: GroupRow(groups, group).activeRun.Some? ==>
              var run := GroupRow(groups, group).activeRun.value;
              run in s.runningBackends && GroupRow(groups, group).activeBackend == Some(s.runningBackends[run])
  {
    forall group | GroupRow(groups, group).activeRun.Some?
      ensures var run := GroupRow(groups, group).activeRun.value;
              run in s.runningBackends && GroupRow(groups, group).activeBackend == Some(s.runningBackends[run])
    {
      assert Tallies(s, s.requests.Keys, group, GroupRow(groups, group));
      var run := GroupRow(groups, group).activeRun.value;
      assert RunOk(cfg, run, View(s, run));
    }
  }

  class Coordinator {
    const cfg: Config
    const sessions: WorkspaceSessionStore
    var groupQueues: map<string, seq<Entry>>
    var groupWorkers: map<string, Worker>
    var runFutures: map<RunId, Future>
    var runRequests: map<RunId, Request>
    var statuses: map<RunId, Status>
    var runningBackends: map<RunId, string>
    var runningTasks: map<RunId, ExecTask>
    var runSessionIds: map<RunId, string>
    var cancelledRunIds: set<RunId>
    var completedResults: map<RunId, Result>
    var completedOrder: seq<RunId>
    var runSnapshots: map<RunId, Snapshot>
    var adHocDraws: nat
    ghost var past: History

    /** The object's fields and the history, as the state the step functions work on. */
    ghost function Value(): State
      reads this, sessions
    {
      State(groupQueues, groupWorkers, runFutures, runRequests, statuses, runningBackends, runningTasks,
            runSessionIds, cancelledRunIds, completedResults, completedOrder, runSnapshots,
            sessions.Value(), adHocDraws, past)
    }

    ghost predicate Valid()
      reads this, sessions
    {
      sessions.factory == cfg.factory && Inv(cfg, Value())
    }

    constructor (cfg: Config, sessions: WorkspaceSessionStore)
      requires sessions.factory == cfg.factory && sessions.Value() == Store(map[], 0)
      ensures Valid() && Value() == INITIAL
      ensures this.cfg == cfg && this.sessions == sessions
    {
      this.cfg, this.sessions := cfg, sessions;
      groupQueues, groupWorkers, runFutures, runRequests, statuses := map[], map[], map[], map[], map[];
      runningBackends, runningTasks, runSessionIds, cancelledRunIds := map[], map[], map[], {};
      completedResults, completedOrder, runSnapshots, adHocDraws := map[], [], map[], 0;
      past := INITIAL.past;
      new;
      InitialInv(cfg);
    }

    // ---- submit -------------------------------------------------------

    method EnsureGroupWorker(group: string)
      modifies this`groupWorkers
      ensures groupWorkers == EnsureWorker(old(groupWorkers), group)
    {
      if group !in groupWorkers {
        groupWorkers := groupWorkers[group := Ready];
      }
    }

    method Enqueue(entry: Entry)
      modifies this`groupQueues
      ensures groupQueues == old(groupQueues[entry.request.group := At(groupQueues, entry.request.group) + [entry]])
    {
      var group := entry.request.group;
      if group !in groupQueues {
        groupQueues := groupQueues[group := []];
      }
      groupQueues := groupQueues[group := groupQueues[group] + [entry]];
    }

    method Register(run: RunId, request: Request)
      modifies this`runFutures, this`runRequests, this`statuses, this`runSnapshots, this`past
      ensures runFutures == old(runFutures)[run := Pending]
      ensures runRequests == old(runRequests)[run := request]
      ensures statuses == old(statuses)[run := Queued]
      ensures runSnapshots == old(runSnapshots)[run := NewSnapshot(request)]
      ensures past == LogSubmission(old(past), run, request)
    {
      runFutures := runFutures[run := Pending];
      runRequests := runRequests[run := request];
      statuses := statuses[run := Queued];
      runSnapshots := runSnapshots[run := NewSnapshot(request)];
      past := LogSubmission(past, run, request);
    }

    method Dispatch(entry: Entry)
      modifies this`groupQueues, this`groupWorkers
      ensures groupQueues == old(groupQueues[entry.request.group := At(groupQueues, entry.request.group) + [entry]])
      ensures groupWorkers == EnsureWorker(old(groupWorkers), entry.request.group)
    {
      Enqueue(entry);
      EnsureGroupWorker(entry.request.group);
    }

    method Accept(run: RunId, request: Request)
      modifies this
      ensures Value() == Submit(old(Value()), run, request)
    {
      Register(run, request);
      Dispatch(Entry(run, request));
    }

    method SubmitExecution(run: RunId, request: Request)
      requires Valid() && run !in past.known
      modifies this
      ensures Valid() && Value() == Submit(old(Value()), run, request)
      ensures StageOf(Value(), run) == InQueue && runRequests[run] == request
      ensures At(groupQueues, request.group) == old(At(groupQueues, request.group)) + [Entry(run, request)]
      ensures forall g | g != request.group :: At(groupQueues, g) == old(At(groupQueues, g))
    {
      SubmitWaits(cfg, Value(), run, request);
      SubmitInv(cfg, Value(), run, request);
      Accept(run, request);
    }

    // ---- terminal results ---------------------------------------------

    method EvictStaleRuns()
      modifies this`completedOrder, this`completedResults, this`statuses, this`runSnapshots
      ensures Cache(completedOrder, completedResults, statuses, runSnapshots)
              == EvictStale(cfg.maxCompleted, old(Cache(completedOrder, completedResults, statuses, runSnapshots)))
    {
      while |completedOrder| > cfg.maxCompleted
        invariant EvictStale(cfg.maxCompleted, Cache(completedOrder, completedResults, statuses, runSnapshots))
                  == EvictStale(cfg.maxCompleted, old(Cache(completedOrder, completedResults, statuses, runSnapshots)))
        decreases |completedOrder|
      {
        var stale := completedOrder[0];
        completedOrder := completedOrder[1..];
        completedResults := completedResults - {stale};
        statuses := statuses - {stale};
        runSnapshots := runSnapshots - {stale};
      }
    }

    method RecordResult(result: Result)
      modifies this`completedOrder, this`completedResults, this`statuses, this`runSnapshots
      ensures statuses == old(statuses)[result.run := result.status]
      ensures completedResults == old(completedResults)[result.run := result]
      ensures completedOrder == old(completedOrder) + [result.run]
      ensures runSnapshots == MarkTerminal(old(runSnapshots), result)
    {
      statuses := statuses[result.run := result.status];
      completedResults := completedResults[result.run := result];
      completedOrder := completedOrder + [result.run];
      if result.run in runSnapshots {
        runSnapshots := runSnapshots[result.run := runSnapshots[result.run].(
          status := result.status, backend := Some(result.backend), sessionId := Some(result.sessionId),
          slot := result.slot, finalOutput := result.finalOutput, error := result.error,
          timeoutMs := result.timeoutMs)];
      }
    }

    method ResolveFuture(result: Result)
      modifies this`runFutures, this`runRequests, this`past
      ensures runFutures == old(runFutures) - {result.run}
      ensures runRequests == old(runRequests) - {result.run}
      ensures past == LogTerminal(old(past), result,
                                  old(result.run in runFutures && runFutures[result.run].Pending?))
    {
      past := LogTerminal(past, result, result.run in runFutures && runFutures[result.run].Pending?);
      runFutures := runFutures - {result.run};
      runRequests := runRequests - {result.run};
    }

    method StoreTerminalResult(result: Result)
      modifies this`completedOrder, this`completedResults, this`statuses, this`runSnapshots,
               this`runFutures, this`runRequests, this`past
      ensures Value() == StoreTerminal(cfg.maxCompleted, old(Value()), result)
    {
      RecordResult(result);
      EvictStaleRuns();
      ResolveFuture(result);
    }

    // ---- session ids --------------------------------------------------

    method ResolveSessionId(request: Request, backend: string, freshSession: bool) returns (sessionId: string)
      requires sessions.factory == cfg.factory
      modifies this`adHocDraws, sessions
      ensures var r := Resolve(cfg, old(sessions.Value()), old(adHocDraws), request, backend, freshSession);
              sessionId == r.sessionId && sessions.Value() == r.store && adHocDraws == r.adHocDraws
    {
      var key := BuildSlotWorkspaceKey(request.group, request.slot);
      if backend == OPENAI {
        sessionId := sessions.Preview(key, backend, freshSession);
        return;
      }
      if freshSession {
        sessionId := cfg.adHocId(key, adHocDraws);
        adHocDraws := adHocDraws + 1;
        return;
      }
      sessionId := key;
    }

    // ---- the group worker ---------------------------------------------

    method Reject(entry: Entry, backend: string, slot: string, error: string)
      requires sessions.factory == cfg.factory
      modifies this, sessions
      ensures Value() == RejectEntry(cfg, old(Value()), entry, backend, slot, error)
    {
      var sessionId := ResolveSessionId(entry.request, backend, entry.request.freshSession);
      StoreTerminalResult(
        Result(entry.run, Failed, entry.request.group, backend, sessionId, slot, None, Some(error), None));
    }

    method MarkStarted(run: RunId, backend: string, sessionId: string)
      modifies this`runSessionIds, this`statuses, this`runSnapshots
      ensures runSessionIds == old(runSessionIds)[run := sessionId]
      ensures statuses == old(statuses)[run := Running]
      ensures runSnapshots == MarkRunning(old(runSnapshots), run, backend, sessionId)
    {
      runSessionIds := runSessionIds[run := sessionId];
      statuses := statuses[run := Running];
      if run in runSnapshots {
        runSnapshots := runSnapshots[run := runSnapshots[run].(
          status := Running, backend := Some(backend), sessionId := Some(sessionId))];
      }
    }

    method LaunchTask(run: RunId, task: ExecTask)
      modifies this`runningBackends, this`runningTasks, this`groupWorkers
      ensures runningBackends == old(runningBackends)[run := task.backend]
      ensures runningTasks == old(runningTasks)[run := task]
      ensures groupWorkers == old(groupWorkers)[task.request.group := Awaiting(run)]
    {
      runningBackends := runningBackends[run := task.backend];
      runningTasks := runningTasks[run := task];
      groupWorkers := groupWorkers[task.request.group := Awaiting(run)];
    }

    /** The table entries of a starting run, given the session id it resolved. */
    method Launch(run: RunId, task: ExecTask)
      modifies this`runSessionIds, this`statuses, this`runSnapshots,
               this`runningBackends, this`runningTasks, this`groupWorkers
      ensures runSessionIds == old(runSessionIds)[run := task.sessionId]
      ensures statuses == old(statuses)[run := Running]
      ensures runSnapshots == MarkRunning(old(runSnapshots), run, task.backend, task.sessionId)
      ensures runningBackends == old(runningBackends)[run := task.backend]
      ensures runningTasks == old(runningTasks)[run := task]
      ensures groupWorkers == old(groupWorkers)[task.request.group := Awaiting(run)]
    {
      MarkStarted(run, task.backend, task.sessionId);
      LaunchTask(run, task);
    }

    method Start(entry: Entry, backend: string)
      requires sessions.factory == cfg.factory
      modifies this, sessions
      ensures Value() == StartEntry(cfg, old(Value()), entry, backend)
    {
      var sessionId := ResolveSessionId(entry.request, backend, entry.request.freshSession);
      Launch(entry.run, NewExecTask(entry.request, backend, sessionId, sessions.Value()));
    }

    /** `_run_group_queue` until it suspends: the loop over the queue with `_execute_request` in its body. */
    method RunGroupQueue(group: string)
      requires Valid() && group in groupWorkers && groupWorkers[group].Ready?
      modifies this, sessions
      ensures Valid() && Value() == Turn(cfg, old(Value()), group)
    {
      while group in groupQueues && groupQueues[group] != []
        invariant Valid() && group in groupWorkers && groupWorkers[group].Ready?
        invariant Turn(cfg, Value(), group) == Turn(cfg, old(Value()), group)
        decreases |At(groupQueues, group)|
      {
        ghost var before := Value();
        PopHeadInv(cfg, before, group);
        PopHeadShortens(cfg, before, group);
        PopHeadKeepsWorker(cfg, before, group);
        ExecuteNext(group);
        if groupWorkers[group].Awaiting? {
          return;
        }
      }
      RetireInv(cfg, Value(), group);
      groupWorkers := groupWorkers - {group};
    }

    /** One iteration of the loop. */
    method ExecuteNext(group: string)
      requires sessions.factory == cfg.factory
      requires group in groupQueues && groupQueues[group] != []
      modifies this, sessions
      ensures Value() == PopHead(cfg, old(Value()), group)
    {
      var entry := groupQueues[group][0];
      groupQueues := groupQueues[group := groupQueues[group][1..]];
      ghost var place := PlaceFor(cfg, Value(), entry);
      past := past.(popped := past.popped[group := At(past.popped, group) + [Pop(entry, place)]]);
      if entry.run !in runFutures || runFutures[entry.run].Abandoned? {
        return;
      }
      match cfg.policy(entry.request)
      case Raised(message) => Reject(entry, "unknown", entry.request.slot, message);
      case Selected(backend) =>
        if backend in cfg.backends {
          Start(entry, backend);
        } else {
          Reject(entry, backend, "main", "unknown execution backend: " + backend);
        }
    }

    method ReleaseRun(run: RunId, group: string)
      modifies this`groupWorkers, this`runningBackends, this`runningTasks, this`runSessionIds, this`cancelledRunIds
      ensures Value() == Release(old(Value()), run, group)
    {
      groupWorkers := groupWorkers[group := Ready];
      runningBackends := runningBackends - {run};
      runningTasks := runningTasks - {run};
      runSessionIds := runSessionIds - {run};
      cancelledRunIds := cancelledRunIds - {run};
    }

    /** The end of `_execute_request`: clean up, then store the result unless the run was cancelled. */
    method FinishAwaited(group: string)
      requires Enabled(Value(), WorkerResume(group))
      modifies this
      ensures Value() == FinishRun(cfg, old(Value()), group)
    {
      var run := groupWorkers[group].run;
      var task := runningTasks[run];
      var wasCancelled := run in cancelledRunIds;
      ReleaseRun(run, group);
      if !wasCancelled && task.phase.Finished? {
        StoreTerminalResult(task.phase.result);
      }
    }

    /** The worker wakes up because its execution task is done. */
    method ResumeWorker(group: string)
      requires Valid() && Enabled(Value(), WorkerResume(group))
      modifies this, sessions
      ensures Valid() && Value() == Apply(cfg, old(Value()), WorkerResume(group))
    {
      FinishInv(cfg, Value(), group);
      FinishAwaited(group);
      RunGroupQueue(group);
    }

    // ---- the execution task -------------------------------------------

    method StartCall(run: RunId)
      requires Valid() && Enabled(Value(), TaskBegin(run))
      modifies this
      ensures Valid() && Value() == Apply(cfg, old(Value()), TaskBegin(run))
    {
      StepInv(cfg, Value(), TaskBegin(run));
      past := LogCall(past, run, runningTasks[run].sessionId);
      runningTasks := runningTasks[run := runningTasks[run].(phase := FirstCall)];
    }

    method Unwind(run: RunId)
      requires Valid() && Enabled(Value(), TaskUnwind(run))
      modifies this
      ensures Valid() && Value() == Apply(cfg, old(Value()), TaskUnwind(run))
    {
      StepInv(cfg, Value(), TaskUnwind(run));
      runningTasks := runningTasks[run := runningTasks[run].(phase := Unwound)];
    }

    method Conclude(run: RunId, result: Result)
      requires run in runningTasks
      modifies this, sessions
      ensures Value() == ConcludeTask(old(Value()), run, result)
    {
      var task := runningTasks[run];
      if task.backend == OPENAI && result.status == Completed {
        sessions.Commit(task.key, task.backend, result.sessionId);
      }
      runningTasks := runningTasks[run := task.(phase := Finished(result))];
    }

    method Retry(run: RunId, message: string)
      requires sessions.factory == cfg.factory && run in runningTasks
      modifies this, sessions
      ensures Value() == RetryTask(cfg, old(Value()), run, message)
    {
      var task := runningTasks[run];
      runSnapshots := MarkRecoveryAttempt(runSnapshots, run, message);
      sessions.Drop(task.key);
      var retryId := ResolveSessionId(task.request, task.backend, true);
      runSessionIds := runSessionIds[run := retryId];
      runningTasks := runningTasks[run := task.(phase := SecondCall(retryId))];
      past := LogCall(past, run, retryId);
    }

    method FirstOutcome(run: RunId, outcome: Outcome)
      requires sessions.factory == cfg.factory && run in runningTasks
      modifies this, sessions
      ensures Value() == EndFirstCall(cfg, old(Value()), run, outcome)
    {
      var task := runningTasks[run];
      if !outcome.RuntimeRaised? {
        Conclude(run, CallResult(run, task, task.sessionId, outcome));
      } else if outcome.resumeFailed && !task.request.freshSession && task.backend == OPENAI {
        Retry(run, outcome.message);
      } else {
        runningTasks := runningTasks[run := task.(phase := Failure(run, task, task.sessionId, outcome.message))];
      }
    }

    method SecondOutcome(run: RunId, retryId: string, outcome: Outcome)
      requires run in runningTasks
      modifies this, sessions
      ensures Value() == EndSecondCall(old(Value()), run, retryId, outcome)
    {
      var task := runningTasks[run];
      runSnapshots := MarkRecoveryResult(runSnapshots, run, !outcome.RuntimeRaised?);
      if !outcome.RuntimeRaised? {
        Conclude(run, CallResult(run, task, retryId, outcome));
      } else {
        runningTasks := runningTasks[run := task.(phase := Failure(run, task, retryId, outcome.message))];
      }
    }

    /**
     `_execute_backend_with_lifecycle` from one backend outcome to its next
     suspension or its end: a retry invalidates the key, a completed openai run
     commits the id it reports, and any other end leaves the store as it was.
     */
    method HandleOutcome(run: RunId, outcome: Outcome)
      requires Valid() && Enabled(Value(), CallEnd(run, outcome))
      modifies this, sessions
      ensures Valid() && Value() == Apply(cfg, old(Value()), CallEnd(run, outcome))
      ensures run in runningTasks && (runningTasks[run].phase.SecondCall? || runningTasks[run].phase.Finished?)
      ensures OutcomeFits(old(runningTasks[run]), outcome, runningTasks[run].phase)
      ensures var task, phase := old(runningTasks[run]), runningTasks[run].phase;
              GetState(sessions.Value(), task.key) ==
                if phase.SecondCall? then INVALIDATED
                else if task.backend == OPENAI && phase.result.status == Completed
                then SessionState(Some(phase.result.sessionId), Some(OPENAI), true)
                else old(GetState(sessions.Value(), task.key))
    {
      OutcomeTells(cfg, Value(), run, outcome);
      DispatchOutcome(run, outcome);
    }

    method DispatchOutcome(run: RunId, outcome: Outcome)
      requires sessions.factory == cfg.factory && Enabled(Value(), CallEnd(run, outcome))
      modifies this, sessions
      ensures Value() == EndCall(cfg, old(Value()), run, outcome)
    {
      if runningTasks[run].phase.FirstCall? {
        FirstOutcome(run, outcome);
      } else {
        SecondOutcome(run, runningTasks[run].phase.retryId, outcome);
      }
    }

    // ---- cancel -------------------------------------------------------

    method CancelWaiting(run: RunId)
      requires sessions.factory == cfg.factory && run in runRequests
      modifies this, sessions
      ensures Value() == CancelQueued(cfg, old(Value()), run)
    {
      var request := runRequests[run];
      var backend := SafeSelect(cfg, request);
      var sessionId := ResolveSessionId(request, backend, request.freshSession);
      StoreTerminalResult(PlainResult(run, request, backend, sessionId, Cancelled, None));
    }

    method FlagCancelled(run: RunId)
      requires run in runningTasks
      modifies this`cancelledRunIds, this`statuses, this`runningTasks
      ensures Value() == MarkForCancel(old(Value()), run)
    {
      cancelledRunIds := cancelledRunIds + {run};
      statuses := statuses[run := Cancelled];
      runningTasks := runningTasks[run := RequestCancel(runningTasks[run])];
    }

    method CancelStarted(run: RunId)
      requires sessions.factory == cfg.factory && run in runRequests && run in runningTasks
      modifies this, sessions
      ensures Value() == CancelRunning(cfg, old(Value()), run)
    {
      var request := runRequests[run];
      var backend := SafeSelect(cfg, request);
      var peeked := ResolveSessionId(request, backend, request.freshSession);
      var sessionId := if run in runSessionIds then runSessionIds[run] else peeked;
      FlagCancelled(run);
      StoreTerminalResult(PlainResult(run, request, backend, sessionId, Cancelled, None));
    }

    method CancelRun(run: RunId) returns (ok: bool)
      requires Valid()
      modifies this, sessions
      ensures Valid() && Value() == Cancel(cfg, old(Value()), run)
      ensures ok <==> old(StageOf(Value(), run)) == InQueue || old(StageOf(Value(), run)) == InProgress
      ensures ok ==> StageOf(Value(), run).Ended? && StageOf(Value(), run).result.status == Cancelled
      ensures ok ==> CancelReports(cfg, old(Value()), run, sessions.draws, StageOf(Value(), run).result)
    {
      CancelReported(cfg, Value(), run);
      StepInv(cfg, Value(), CancelEvent(run));
      CancelAlwaysPossible(cfg, Value(), run);
      CancelEnds(cfg, Value(), run);
      if run in statuses && statuses[run] == Queued {
        CancelWaiting(run);
        return true;
      }
      if run in statuses && statuses[run] == Running {
        CancelStarted(run);
        return true;
      }
      ok := false;
    }

    /** A task waiting in `wait_for_run` is cancelled, and with it the future it awaits. */
    method AbandonWaiter(run: RunId)
      requires Valid() && run in runFutures && runFutures[run].Pending?
      modifies this
      ensures Valid() && Value() == Abandon(old(Value()), run)
    {
      AbandonInv(cfg, Value(), run);
      runFutures := runFutures[run := Abandoned];
      past := past.(abandoned := past.abandoned + {run});
    }

    // ---- reading ------------------------------------------------------

    method WaitForRun(run: RunId) returns (answer: Answer)
      requires Valid()
      ensures answer == WaitFor(Value(), run)
      ensures answer.Missing? <==>
                StageOf(Value(), run).Absent?
                || (StageOf(Value(), run).Ended?
                    && !Retained(past.terminals, past.finishedAt, completedOrder, run))
      ensures answer.Cached? ==> StageOf(Value(), run) == Ended(answer.result)
      ensures answer.OnFuture? <==> StageOf(Value(), run).InQueue? || StageOf(Value(), run).InProgress?
    {
      WaitMissesExactly(cfg, Value(), run);
      if run in completedResults {
        return Cached(completedResults[run]);
      }
      answer := if run in runFutures then OnFuture else Missing;
    }

    /** One run of the monitor's loop. */
    method TallyRun(groups: map<string, MonitorGroup>, run: RunId) returns (next: map<string, MonitorGroup>)
      requires run in runRequests
      ensures OneMoreRun(Value(), groups, run, next)
    {
      if run !in statuses || (statuses[run] != Queued && statuses[run] != Running) {
        return groups;
      }
      var group := runRequests[run].group;
      var row := GroupRow(groups, group);
      if statuses[run] == Queued {
        return groups[group := row.(queued := row.queued + 1)];
      }
      next := groups[group := row.(
        running := row.running + 1, activeRun := Some(run), activeBackend := ActiveBackend(runSnapshots, run))];
    }

    method TallyAll() returns (groups: map<string, MonitorGroup>)
      requires AllShown(Value())
      ensures AllTallied(Value(), runRequests.Keys, groups)
    {
      var todo := runRequests.Keys;
      groups := map[];
      NothingTallied(Value());
      assert runRequests.Keys - todo == {};
      while todo != {}
        invariant todo <= runRequests.Keys
        invariant AllTallied(Value(), runRequests.Keys - todo, groups)
        decreases todo
      {
        var run :| run in todo;
        var next := TallyRun(groups, run);
        AllTalliedStep(Value(), runRequests.Keys - todo, run, groups, next);
        assert runRequests.Keys - (todo - {run}) == runRequests.Keys - todo + {run};
        groups, todo := next, todo - {run};
      }
      assert runRequests.Keys - todo == runRequests.Keys;
    }

    /** Main result: the rows are exactly the queued and running sets of each group, and the run its worker awaits. */
    method MonitorQueueSnapshot() returns (groups: map<string, MonitorGroup>)
      requires Valid()
      ensures AllTallied(Value(), runRequests.Keys, groups)
      ensures forall group, run :: GroupRow(groups, group).activeRun == Some(run)
                <==> run in LiveWith(Value(), group, Running)
      ensures forall group :: GroupRow(groups, group).activeRun.Some? ==>
                var run := GroupRow(groups, group).activeRun.value;
                run in runningBackends && GroupRow(groups, group).activeBackend == Some(runningBackends[run])
    {
      LiveStatuses(cfg, Value());
      groups := TallyAll();
      AllOnlyRunning(cfg, Value(), groups);
      AllNameBackends(cfg, Value(), groups);
    }
  }
}
