/**
 Which runs never end: a run whose waiter is cancelled while it is queued is
 passed over by its worker, and from then on only a cancel through the
 coordinator can end it.
 */
module CoordinatorStranding {
  import opened Wrappers
  import opened Execution
  import opened CoordinatorSteps
  import opened CoordinatorInvariant
  import opened CoordinatorPreservation
  import opened CoordinatorHistory
  import opened CoordinatorProgress
  import opened CoordinatorReports
  import opened CoordinatorSubmissions

  /** The run's future is cancelled, and it has neither started nor ended. */
  predicate Stuck(s: State, run: RunId) {
    && run in s.futures && s.futures[run].Abandoned?
    && run !in s.past.finishedAt && run !in s.tasks
  }

  // ---- only a cancel gets a stuck run out -----------------------------

  lemma RejectKeepsStuck(cfg: Config, s: State, entry: Entry, backend: string, slot: string, error: string, run: RunId)
    requires Stuck(s, run) && entry.run != run
    ensures Stuck(RejectEntry(cfg, s, entry, backend, slot, error), run)
  {
  }

  lemma StartKeepsStuck(cfg: Config, s: State, entry: Entry, backend: string, run: RunId)
    requires Stuck(s, run) && entry.run != run
    ensures Stuck(StartEntry(cfg, s, entry, backend), run)
  {
  }

  lemma PopHeadKeepsStuck(cfg: Config, s: State, group: string, run: RunId)
    requires At(s.queues, group) != [] && Stuck(s, run)
    ensures Stuck(PopHead(cfg, s, group), run)
  {
    var entry := At(s.queues, group)[0];
    var place := PlaceFor(cfg, s, entry);
    var t := LogPop(s, entry, group, place);
    assert Stuck(t, run);
    if place != Skipped && place != Dropped {
      assert entry.run != run;
      match cfg.policy(entry.request)
      case Raised(message) => RejectKeepsStuck(cfg, t, entry, "unknown", entry.request.slot, message, run);
      case Selected(backend) =>
        if backend in cfg.backends {
          StartKeepsStuck(cfg, t, entry, backend, run);
        } else {
          RejectKeepsStuck(cfg, t, entry, backend, "main", "unknown execution backend: " + backend, run);
        }
    }
  }

  lemma {:induction false} TurnKeepsStuck(cfg: Config, s: State, group: string, run: RunId)
    requires Stuck(s, run)
    ensures Stuck(Turn(cfg, s, group), run)
    decreases |At(s.queues, group)|
  {
    if At(s.queues, group) != [] {
      var t := PopHead(cfg, s, group);
      PopHeadShortens(cfg, s, group);
      PopHeadKeepsStuck(cfg, s, group, run);
      if !(group in t.workers && t.workers[group].Awaiting?) {
        TurnKeepsStuck(cfg, t, group, run);
      }
    }
  }

  lemma FinishKeepsStuck(cfg: Config, s: State, group: string, run: RunId)
    requires Inv(cfg, s) && Enabled(s, WorkerResume(group)) && Stuck(s, run)
    ensures Stuck(FinishRun(cfg, s, group), run)
  {
    var other := s.workers[group].run;
    assert RunOk(cfg, other, View(s, other));
    assert Stuck(Release(s, other, group), run);
  }

  lemma CancelKeepsStuck(cfg: Config, s: State, other: RunId, run: RunId)
    requires Stuck(s, run) && other != run
    ensures Stuck(Cancel(cfg, s, other), run)
  {
    if CanCancel(s, other) {
      var request := s.requests[other];
      var peeked := AfterPeek(cfg, s, request, SafeSelect(cfg, request));
      assert Stuck(peeked, run);
      if s.statuses[other] != Queued {
        assert Stuck(MarkForCancel(peeked, other), run);
      }
    }
  }

  lemma CallEndKeepsStuck(cfg: Config, s: State, other: RunId, outcome: Outcome, run: RunId)
    requires Inv(cfg, s) && Enabled(s, CallEnd(other, outcome)) && Stuck(s, run)
    ensures Stuck(EndCall(cfg, s, other, outcome), run)
  {
    var phase := CallEndMoves(cfg, s, other, outcome);
  }

  lemma StepKeepsStuck(cfg: Config, s: State, e: Event, run: RunId)
    requires Inv(cfg, s) && Enabled(s, e) && Stuck(s, run) && run in s.past.known && e != CancelEvent(run)
    ensures Stuck(Apply(cfg, s, e), run)
  {
    match e
    case SubmitEvent(_, _) =>
    case WorkerTurn(group) => TurnKeepsStuck(cfg, s, group, run);
    case WorkerResume(group) =>
      FinishKeepsStuck(cfg, s, group, run);
      TurnKeepsStuck(cfg, FinishRun(cfg, s, group), group, run);
    case TaskBegin(_) =>
    case CallEnd(other, outcome) => CallEndKeepsStuck(cfg, s, other, outcome, run);
    case TaskUnwind(_) =>
    case CancelEvent(other) => CancelKeepsStuck(cfg, s, other, run);
    case WaiterCancelled(_) =>
  }

  lemma RunStepKeepsStuck(cfg: Config, states: seq<State>, events: seq<Event>, j: nat, run: RunId)
    requires IsRun(cfg, states, events) && j < |events| && events[j] != CancelEvent(run)
    requires Stuck(states[j], run) && run in states[j].past.known
    ensures Stuck(states[j + 1], run) && run in states[j + 1].past.known
  {
    RunInv(cfg, states, events, j);
    RunGrows(cfg, states, events, j, j + 1);
    assert Enabled(states[j], events[j]) && states[j + 1] == Apply(cfg, states[j], events[j]);
    StepKeepsStuck(cfg, states[j], events[j], run);
  }

  lemma {:induction false} RunKeepsStuck(cfg: Config, states: seq<State>, events: seq<Event>, i: nat, j: nat,
                                         run: RunId)
    requires IsRun(cfg, states, events) && i <= j < |states| && Stuck(states[i], run) && run in states[i].past.known
    requires forall m | i <= m < j :: events[m] != CancelEvent(run)
    ensures Stuck(states[j], run) && run in states[j].past.known
    decreases j
  {
    if i < j {
      RunKeepsStuck(cfg, states, events, i, j - 1, run);
      RunStepKeepsStuck(cfg, states, events, j - 1, run);
    }
  }

  // ---- how a run gets stuck -------------------------------------------

  /** At k the run's waiter is cancelled while the run is queued, and nobody cancels the run before j. */
  ghost predicate StrandedAt(states: seq<State>, events: seq<Event>, k: nat, j: nat, run: RunId)
    requires j < |states| == |events| + 1
  {
    && k < j && events[k] == WaiterCancelled(run) && StageOf(states[k], run) == InQueue
    && forall m | k < m < j :: events[m] != CancelEvent(run)
  }

  /** Only the cancellation of its waiter abandons a run. */
  lemma AbandonedNow(cfg: Config, s: State, e: Event, run: RunId)
    requires Inv(cfg, s) && Enabled(s, e) && run !in s.past.abandoned
    ensures run in Apply(cfg, s, e).past.abandoned ==> e == WaiterCancelled(run)
  {
    if !e.SubmitEvent? && !e.TaskBegin? && !e.CallEnd? && !e.WaiterCancelled? {
      OtherEventsAreCalm(cfg, s, e);
    } else if e.CallEnd? {
      var phase := CallEndMoves(cfg, s, e.run, e.outcome);
    }
  }

  lemma {:induction false} WhenAbandoned(cfg: Config, states: seq<State>, events: seq<Event>, j: nat, run: RunId)
      returns (k: nat)
    requires IsRun(cfg, states, events) && j < |states| && run in states[j].past.abandoned
    ensures k < j && events[k] == WaiterCancelled(run)
  {
    NoneAtFirst(cfg, states, events);
    k := j - 1;
    if run in states[k].past.abandoned {
      k := WhenAbandoned(cfg, states, events, k, run);
    } else {
      AbandonedBy(cfg, states, events, k, run);
    }
  }

  lemma NoneAtFirst(cfg: Config, states: seq<State>, events: seq<Event>)
    requires IsRun(cfg, states, events)
    ensures states[0].past.abandoned == {}
  {
  }

  lemma AbandonedBy(cfg: Config, states: seq<State>, events: seq<Event>, j: nat, run: RunId)
    requires IsRun(cfg, states, events) && j < |events|
    requires run !in states[j].past.abandoned && run in states[j + 1].past.abandoned
    ensures events[j] == WaiterCancelled(run)
  {
    RunInv(cfg, states, events, j);
    assert Enabled(states[j], events[j]) && states[j + 1] == Apply(cfg, states[j], events[j]);
    AbandonedNow(cfg, states[j], events[j], run);
  }

  /** A run that is still queued was queued at every earlier step since it was known, and was not cancelled there. */
  lemma StillQueued(cfg: Config, states: seq<State>, events: seq<Event>, m: nat, j: nat, run: RunId)
    requires IsRun(cfg, states, events) && m < j < |states|
    requires StageOf(states[j], run) == InQueue && !StageOf(states[m], run).Absent?
    ensures StageOf(states[m], run) == InQueue && events[m] != CancelEvent(run)
  {
    StatusMovesForward(cfg, states, events, m, j, run);
    StatusMovesForward(cfg, states, events, m + 1, j, run);
    RunInv(cfg, states, events, m);
    assert Enabled(states[m], events[m]) && states[m + 1] == Apply(cfg, states[m], events[m]);
    if events[m] == CancelEvent(run) {
      CancelEnds(cfg, states[m], run);
    }
  }

  lemma StrandedWhen(cfg: Config, states: seq<State>, events: seq<Event>, j: nat, run: RunId) returns (k: nat)
    requires IsRun(cfg, states, events) && j < |states|
    requires StageOf(states[j], run) == InQueue && run in states[j].past.abandoned
    ensures StrandedAt(states, events, k, j, run)
  {
    k := WhenAbandoned(cfg, states, events, j, run);
    RunInv(cfg, states, events, k);
    assert Enabled(states[k], events[k]) && RunOk(cfg, run, View(states[k], run));
    StillQueued(cfg, states, events, k, j, run);
    forall m | k < m < j ensures events[m] != CancelEvent(run) {
      StatusMovesForward(cfg, states, events, k, m, run);
      StillQueued(cfg, states, events, m, j, run);
    }
  }

  lemma StrandedStays(cfg: Config, states: seq<State>, events: seq<Event>, k: nat, j: nat, run: RunId)
    requires IsRun(cfg, states, events) && j < |states| && StrandedAt(states, events, k, j, run)
    ensures !StageOf(states[j], run).Ended?
  {
    RunInv(cfg, states, events, k);
    assert Enabled(states[k], events[k]) && states[k + 1] == Apply(cfg, states[k], events[k]);
    assert RunOk(cfg, run, View(states[k], run));
    RunKeepsStuck(cfg, states, events, k + 1, j, run);
  }

  /**
   Main result: once a group has no work left it has no worker, no task and no
   pending cancellation, and a run of it has failed to end if and only if its
   waiter was cancelled while it was queued and nobody cancelled it through the
   coordinator after that.
   */
  lemma QuiescentGroup(cfg: Config, states: seq<State>, events: seq<Event>, j: nat, group: string, run: RunId)
    requires IsRun(cfg, states, events) && j < |states| && Work(states[j], group) == 0
    requires run in states[j].past.known && states[j].past.known[run].request.group == group
    ensures group !in states[j].workers && At(states[j].queues, group) == []
    ensures run !in states[j].tasks && run !in states[j].cancelled
            && run !in states[j].sessionIds && run !in states[j].runningBackends
    ensures !StageOf(states[j], run).Ended? <==> exists k :: StrandedAt(states, events, k, j, run)
    ensures !StageOf(states[j], run).Ended? ==> Lookup(states[j].statuses, run) == Some(Queued)
  {
    RunInv(cfg, states, events, j);
    IdleGroup(cfg, states[j], group, run);
    if !StageOf(states[j], run).Ended? {
      var k := StrandedWhen(cfg, states, events, j, run);
    }
    if k :| StrandedAt(states, events, k, j, run) {
      StrandedStays(cfg, states, events, k, j, run);
    }
  }
}
