/**
 What callers of the coordinator can see: the completed cache, waiting for a
 run, the monitor's counts, and how often a run called its backend.
 */
module CoordinatorReports {
  import opened Wrappers
  import opened Execution
  import opened WorkspaceLifecycle
  import opened CoordinatorSteps
  import opened CoordinatorInvariant
  import opened CoordinatorPreservation
  import opened CoordinatorHistory
  import opened CoordinatorSessions
  import opened CoordinatorProgress

  // ---- the completed cache --------------------------------------------

  lemma RowFacts(cfg: Config, s: State, run: RunId)
    requires Inv(cfg, s)
    ensures run in s.statuses <==> run in s.requests || run in s.results
    ensures run in s.snapshots <==> run in s.statuses
    ensures run in s.requests ==> run !in s.results
    ensures run in s.results <==> Retained(s.past.terminals, s.past.finishedAt, s.order, run)
    ensures run in s.results ==>
              s.past.finishedAt[run] < |s.past.terminals|
              && s.results[run] == s.past.terminals[s.past.finishedAt[run]]
              && s.statuses[run] == s.results[run].status
    ensures run in s.past.finishedAt ==> run !in s.requests
  {
    assert RowOk(s.past.terminals, s.past.finishedAt, s.requests, CacheOf(s), run);
    UnknownNotFinished(cfg, s, run);
  }

  /** Main result: the cache is exactly the newest results of the whole completion log, in order. */
  lemma CacheRefinesLog(max: nat, s: State, i: nat)
    requires CacheOk(max, s) && i < Min(|s.past.terminals|, max)
    ensures |s.order| == Min(|s.past.terminals|, max)
    ensures var newest := s.past.terminals[|s.past.terminals| - |s.order| + i];
            && s.order[i] == newest.run
            && Lookup(s.results, newest.run) == Some(newest)
            && Lookup(s.statuses, newest.run) == Some(newest.status)
  {
    var newest := s.past.terminals[|s.past.terminals| - |s.order| + i];
    assert s.past.finishedAt[newest.run] == |s.past.terminals| - |s.order| + i;
    assert RowOk(s.past.terminals, s.past.finishedAt, s.requests, CacheOf(s), newest.run);
  }

  /** Everything older has left the cache and the two other tables. */
  lemma OlderResultsAreGone(cfg: Config, s: State, i: nat)
    requires Inv(cfg, s) && i < |s.past.terminals| - cfg.maxCompleted
    ensures var run := s.past.terminals[i].run; run !in s.results && run !in s.statuses && run !in s.snapshots
  {
    assert s.past.finishedAt[s.past.terminals[i].run] == i;
    RowFacts(cfg, s, s.past.terminals[i].run);
    assert RowOk(s.past.terminals, s.past.finishedAt, s.requests, CacheOf(s), s.past.terminals[i].run);
  }

  /** Main result: eviction never touches a live run; statuses and snapshots are those of live and cached runs. */
  lemma TablesAreLivePlusCached(cfg: Config, s: State)
    requires Inv(cfg, s)
    ensures s.statuses.Keys == s.requests.Keys + s.results.Keys
    ensures s.snapshots.Keys == s.statuses.Keys
    ensures s.requests.Keys !! s.results.Keys
  {
    forall run
      ensures run in s.statuses <==> run in s.requests || run in s.results
      ensures run in s.snapshots <==> run in s.statuses
      ensures !(run in s.requests && run in s.results)
    {
      RowFacts(cfg, s, run);
    }
  }

  /** `wait_for_run`: the cached result, else the future in the dictionary, else a `KeyError`. */
  datatype Answer = Cached(result: Result) | OnFuture | Missing

  function WaitFor(s: State, run: RunId): Answer {
    if run in s.results then Cached(s.results[run])
    else if run in s.futures then OnFuture
    else Missing
  }

  /**
   Waiting raises exactly for ids never submitted and for runs whose result was
   already evicted; it returns at once exactly for the retained results, and
   awaits the future exactly of the runs that have not ended.
   */
  lemma WaitMissesExactly(cfg: Config, s: State, run: RunId)
    requires Inv(cfg, s)
    ensures WaitFor(s, run).Missing? <==>
              StageOf(s, run).Absent?
              || (StageOf(s, run).Ended? && !Retained(s.past.terminals, s.past.finishedAt, s.order, run))
    ensures WaitFor(s, run).Cached? ==> StageOf(s, run) == Ended(WaitFor(s, run).result)
    ensures WaitFor(s, run).OnFuture? <==> StageOf(s, run).InQueue? || StageOf(s, run).InProgress?
  {
    assert RunOk(cfg, run, View(s, run));
    assert RowOk(s.past.terminals, s.past.finishedAt, s.requests, CacheOf(s), run);
  }

  /** Cancelling a queued or running run ends it as cancelled at once; any other run is left alone. */
  lemma CancelEnds(cfg: Config, s: State, run: RunId)
    requires Inv(cfg, s)
    ensures CanCancel(s, run) <==> StageOf(s, run) == InQueue || StageOf(s, run) == InProgress
    ensures CanCancel(s, run) ==> StageOf(Cancel(cfg, s, run), run).Ended?
                                  && StageOf(Cancel(cfg, s, run), run).result.status == Cancelled
    ensures !CanCancel(s, run) ==> Cancel(cfg, s, run) == s
  {
    CanCancelLive(cfg, s, run);
    if CanCancel(s, run) {
      CancelStores(cfg, s, run);
    }
  }

  lemma CanCancelLive(cfg: Config, s: State, run: RunId)
    requires Inv(cfg, s)
    ensures CanCancel(s, run) <==> StageOf(s, run) == InQueue || StageOf(s, run) == InProgress
  {
    CancelAlwaysPossible(cfg, s, run);
    StatusShowsStage(cfg, s, run);
    assert RunOk(cfg, run, View(s, run));
  }

  lemma CancelStores(cfg: Config, s: State, run: RunId)
    requires Inv(cfg, s) && CanCancel(s, run)
    ensures StageOf(Cancel(cfg, s, run), run).Ended? && StageOf(Cancel(cfg, s, run), run).result.status == Cancelled
  {
    assert RunOk(cfg, run, View(s, run));
  }

  // ---- backend calls --------------------------------------------------

  /** The only ways a run's calls can grow. */
  ghost predicate CallsStep(cfg: Config, s: State, t: State, e: Event, run: RunId) {
    var before, after := At(s.past.calls, run), At(t.past.calls, run);
    || after == before
    || (e == TaskBegin(run) && before == [] && |after| == 1)
    || (e.CallEnd? && e.run == run && e.outcome.RuntimeRaised? && e.outcome.resumeFailed
        && |before| == 1 && |after| == 2 && after[0] == before[0])
  }

  lemma StepCalls(cfg: Config, s: State, e: Event, run: RunId)
    requires Inv(cfg, s) && Enabled(s, e)
    ensures CallsStep(cfg, s, Apply(cfg, s, e), e, run)
  {
    assert RunOk(cfg, run, View(s, run));
    if !IsTaskEvent(e) {
      OtherEventsAreQuiet(cfg, s, e);
    } else if e.CallEnd? {
      EndCalls(cfg, s, e.run, e.outcome, run);
    }
  }

  lemma EndCalls(cfg: Config, s: State, ended: RunId, outcome: Outcome, run: RunId)
    requires Inv(cfg, s) && Enabled(s, CallEnd(ended, outcome))
    ensures CallsStep(cfg, s, EndCall(cfg, s, ended, outcome), CallEnd(ended, outcome), run)
  {
    assert RunOk(cfg, ended, View(s, ended));
    var phase := CallEndIs(cfg, s, ended, outcome);
    CallEndCalls(s, EndCall(cfg, s, ended, outcome), ended, phase, run);
  }

  lemma CallEndCalls(s: State, t: State, run: RunId, phase: Phase, other: RunId)
    requires PhaseMove(s, t, run, phase) && CallsFit(s, t, run, phase) && InCall(s.tasks[run])
    ensures if other == run && phase.SecondCall?
            then At(t.past.calls, other) == At(s.past.calls, other) + [phase.retryId]
            else At(t.past.calls, other) == At(s.past.calls, other)
  {
  }

  ghost predicate ResumeFailedBefore(events: seq<Event>, j: nat, run: RunId) {
    exists k :: 0 <= k < j && k < |events| && events[k].CallEnd? && events[k].run == run
                && events[k].outcome.RuntimeRaised? && events[k].outcome.resumeFailed
  }

  lemma {:induction false} TwoCallsMeanResumeFailure(cfg: Config, states: seq<State>, events: seq<Event>, j: nat,
                                                     run: RunId)
    requires IsRun(cfg, states, events) && j < |states|
    ensures |At(states[j].past.calls, run)| == 2 ==> ResumeFailedBefore(events, j, run)
  {
    if j > 0 {
      TwoCallsMeanResumeFailure(cfg, states, events, j - 1, run);
      RunInv(cfg, states, events, j - 1);
      assert Enabled(states[j - 1], events[j - 1]) && states[j - 1 + 1] == Apply(cfg, states[j - 1], events[j - 1]);
      StepCalls(cfg, states[j - 1], events[j - 1], run);
    }
  }

  /**
   Main result: a run calls its backend at most twice, and the second call
   follows a session-resume failure of the first.
   */
  lemma SecondCallNeedsResumeFailure(cfg: Config, states: seq<State>, events: seq<Event>, j: nat, run: RunId)
    requires IsRun(cfg, states, events) && j < |states|
    ensures |At(states[j].past.calls, run)| <= 2
    ensures |At(states[j].past.calls, run)| == 2 ==>
              && run in states[j].past.known && !states[j].past.known[run].request.freshSession
              && cfg.policy(states[j].past.known[run].request) == Selected(OPENAI)
              && ResumeFailedBefore(events, j, run)
  {
    RunInv(cfg, states, events, j);
    assert RunOk(cfg, run, View(states[j], run));
    TwoCallsMeanResumeFailure(cfg, states, events, j, run);
  }

  // ---- the monitor ----------------------------------------------------

  /** The live runs of a group that `get_status` shows with the given status. */
  ghost function LiveWith(s: State, group: string, status: Status): set<RunId> {
    set run | run in s.requests && s.requests[run].group == group && Lookup(s.statuses, run) == Some(status)
  }

  /** The queue entries of a group that were not cancelled while queued. */
  function LiveEntries(queue: seq<Entry>, live: map<RunId, Request>): seq<RunId> {
    if queue == [] then []
    else
      var rest := LiveEntries(queue[..|queue| - 1], live);
      var last := queue[|queue| - 1];
      if last.run in live then rest + [last.run] else rest
  }

  /** The runs of a group that the worker passed over because their waiter had been cancelled. */
  ghost function Stranded(s: State, group: string): set<RunId> {
    set run | run in s.requests && s.requests[run].group == group && PlaceOf(s, run) == Dropped
  }

  lemma {:induction false} LiveEntriesAre(queue: seq<Entry>, live: map<RunId, Request>)
    requires forall i, j | 0 <= i < j < |queue| :: queue[i].run != queue[j].run
    ensures var runs := LiveEntries(queue, live);
            && (forall run :: run in runs <==> run in live && exists i :: 0 <= i < |queue| && queue[i].run == run)
            && |(set run | run in runs)| == |runs|
    decreases |queue|
  {
    if queue != [] {
      var init, last := queue[..|queue| - 1], queue[|queue| - 1];
      LiveEntriesAre(init, live);
      var rest, runs := LiveEntries(init, live), LiveEntries(queue, live);
      forall run ensures run in runs <==> run in live && exists i :: 0 <= i < |queue| && queue[i].run == run {
        if run in live && exists i :: 0 <= i < |queue| && queue[i].run == run {
          var i :| 0 <= i < |queue| && queue[i].run == run;
          assert i < |init| ==> init[i].run == run;
        }
        if run in rest {
          var i :| 0 <= i < |init| && init[i].run == run;
          assert queue[i].run == run;
        }
        assert queue[|queue| - 1].run == last.run;
      }
      if last.run in live {
        assert last.run !in rest;
        assert (set run | run in runs) == (set run | run in rest) + {last.run};
      } else {
        assert runs == rest;
      }
    }
  }

  lemma QueueRunsDistinct(cfg: Config, s: State, group: string)
    requires Inv(cfg, s)
    ensures var queue := At(s.queues, group);
            forall i, j | 0 <= i < j < |queue| :: queue[i].run != queue[j].run
  {
    var queue := At(s.queues, group);
    forall i, j | 0 <= i < j < |queue| ensures queue[i].run != queue[j].run {
      QueueEntries(cfg, s, group, i);
      QueueEntries(cfg, s, group, j);
    }
  }

  lemma QueuedRunIs(cfg: Config, s: State, group: string, run: RunId)
    requires Inv(cfg, s)
    ensures run in LiveWith(s, group, Queued) <==>
              run in Stranded(s, group)
              || (run in s.requests && exists i :: 0 <= i < |At(s.queues, group)| && At(s.queues, group)[i].run == run)
    ensures run in Stranded(s, group) ==>
              !exists i :: 0 <= i < |At(s.queues, group)| && At(s.queues, group)[i].run == run
  {
    var queue := At(s.queues, group);
    assert RunOk(cfg, run, View(s, run)) && GroupOk(ViewGroup(s, group));
    assert ViewGroup(s, group).queue == queue;
    if i :| 0 <= i < |queue| && queue[i].run == run {
      QueueEntries(cfg, s, group, i);
    }
    if run in LiveWith(s, group, Queued) && PlaceOf(s, run) != Dropped {
      GroupPlaces(cfg, s, run);
      var k := s.past.known[run].index - |At(s.past.popped, group)|;
      assert queue[k] == At(s.past.submitted, group)[s.past.known[run].index];
      assert 0 <= k < |queue| && queue[k].run == run;
    }
  }

  /** Main result: the monitor never shows more than one running run per group: the one its worker awaits. */
  lemma MonitorShowsOneRunning(cfg: Config, s: State, group: string, run: RunId)
    requires Inv(cfg, s)
    ensures |LiveWith(s, group, Running)| <= 1
    ensures run in LiveWith(s, group, Running) ==>
              && Lookup(s.workers, group) == Some(Awaiting(run)) && run in s.tasks
              && run in s.snapshots && s.snapshots[run].status == Running
  {
    forall r | r in LiveWith(s, group, Running) ensures Lookup(s.workers, group) == Some(Awaiting(r)) {
      assert RunOk(cfg, r, View(s, r));
    }
    assert RunOk(cfg, run, View(s, run));
    if r :| r in LiveWith(s, group, Running) {
      AtMostOne(LiveWith(s, group, Running), r);
    }
  }

  /**
   Main result: the monitor's queued count is the uncancelled queue entries plus
   the runs stranded by a cancelled waiter.
   */
  lemma MonitorCountsQueued(cfg: Config, s: State, group: string)
    requires Inv(cfg, s)
    ensures |LiveWith(s, group, Queued)| == |LiveEntries(At(s.queues, group), s.requests)| + |Stranded(s, group)|
  {
    QueueRunsDistinct(cfg, s, group);
    LiveEntriesAre(At(s.queues, group), s.requests);
    QueuedAre(cfg, s, group);
    Disjoint(LiveWith(s, group, Queued), WaitingRuns(s, group), Stranded(s, group));
  }

  /** The uncancelled entries of a group's queue. */
  ghost function WaitingRuns(s: State, group: string): set<RunId> {
    set run | run in LiveEntries(At(s.queues, group), s.requests)
  }

  lemma QueuedAre(cfg: Config, s: State, group: string)
    requires Inv(cfg, s)
    ensures forall run ::
              run in LiveWith(s, group, Queued) <==> run in WaitingRuns(s, group) || run in Stranded(s, group)
    ensures forall run :: run in WaitingRuns(s, group) ==> run !in Stranded(s, group)
  {
    QueueRunsDistinct(cfg, s, group);
    LiveEntriesAre(At(s.queues, group), s.requests);
    forall run
      ensures run in LiveWith(s, group, Queued) <==> run in WaitingRuns(s, group) || run in Stranded(s, group)
      ensures run in WaitingRuns(s, group) ==> run !in Stranded(s, group)
    {
      QueuedRunIs(cfg, s, group, run);
    }
  }

  lemma Disjoint(all: set<RunId>, a: set<RunId>, b: set<RunId>)
    requires forall run :: run in all <==> run in a || run in b
    requires forall run :: run in a ==> run !in b
    ensures |all| == |a| + |b|
  {
    assert all == a + b;
  }

  lemma AtMostOne(runs: set<RunId>, run: RunId)
    requires runs <= {run}
    ensures |runs| <= 1
  {
    if runs != {} {
      assert runs == {run};
    }
  }

  // ---- a run that never finishes --------------------------------------

  /** The shortest way to strand a run: its waiter is cancelled before the worker's first turn. */
  lemma WaiterCanStrandARun(cfg: Config, run: RunId, request: Request)
    ensures var events := [SubmitEvent(run, request), WaiterCancelled(run), WorkerTurn(request.group)];
            var s1 := Submit(INITIAL, run, request);
            var s2 := Abandon(s1, run);
            var s3 := Turn(cfg, s2, request.group);
            && IsRun(cfg, [INITIAL, s1, s2, s3], events)
            && Work(s3, request.group) == 0
            && Lookup(s3.statuses, run) == Some(Queued)
            && StageOf(s3, run) == InQueue
            && run in Stranded(s3, request.group)
  {
  }
}
