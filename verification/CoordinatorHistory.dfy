/**
 Over every run of the coordinator: nothing that happened is ever taken back,
 so each run id gets at most one terminal result, its future receives exactly
 that one, and its status only moves forward.
 */
module CoordinatorHistory {
  import opened Wrappers
  import opened Execution
  import opened WorkspaceLifecycle
  import opened CoordinatorSteps
  import opened CoordinatorInvariant
  import opened CoordinatorPreservation

  // ---- runs of the system ---------------------------------------------

  /** A finite run: states[i + 1] is what event i makes of states[i]. */
  ghost predicate IsRun(cfg: Config, states: seq<State>, events: seq<Event>) {
    && |states| == |events| + 1
    && states[0] == INITIAL
    && forall i | 0 <= i < |events| ::
         Enabled(states[i], events[i]) && states[i + 1] == Apply(cfg, states[i], events[i])
  }

  lemma {:induction false} RunInv(cfg: Config, states: seq<State>, events: seq<Event>, i: nat)
    requires IsRun(cfg, states, events) && i < |states|
    ensures Inv(cfg, states[i])
  {
    if i == 0 {
      InitialInv(cfg);
    } else {
      RunInv(cfg, states, events, i - 1);
      assert Enabled(states[i - 1], events[i - 1]) && states[i - 1 + 1] == Apply(cfg, states[i - 1], events[i - 1]);
      StepInv(cfg, states[i - 1], events[i - 1]);
    }
  }

  // ---- the history only grows -----------------------------------------

  ghost predicate Extends<K(!new), V>(m: map<K, V>, n: map<K, V>) {
    forall k | k in m :: k in n && n[k] == m[k]
  }

  ghost predicate Grows(h: History, k: History) {
    && Extends(h.known, k.known)
    && (forall group {:trigger At(k.popped, group)} :: At(h.popped, group) <= At(k.popped, group))
    && h.terminals <= k.terminals
    && Extends(h.finishedAt, k.finishedAt)
    && Extends(h.delivered, k.delivered)
    && h.abandoned <= k.abandoned
  }

  lemma GrowsTransitive(a: History, b: History, c: History)
    requires Grows(a, b) && Grows(b, c)
    ensures Grows(a, c)
  {
  }

  lemma StoreGrows(cfg: Config, s: State, u: State, result: Result)
    requires Inv(cfg, s) && u.past == s.past && result.run in s.requests
    ensures Grows(s.past, StoreTerminal(cfg.maxCompleted, u, result).past)
  {
    assert RunOk(cfg, result.run, View(s, result.run));
    UnknownNotFinished(cfg, s, result.run);
  }

  lemma LogPopGrows(s: State, group: string, place: Place)
    requires At(s.queues, group) != []
    ensures Grows(s.past, LogPop(s, At(s.queues, group)[0], group, place).past)
  {
  }

  lemma RejectGrows(cfg: Config, s: State, group: string, backend: string, slot: string, error: string)
    requires Inv(cfg, s) && At(s.queues, group) != [] && At(s.queues, group)[0].run in s.futures
    ensures var entry := At(s.queues, group)[0];
            Grows(s.past, RejectEntry(cfg, LogPop(s, entry, group, Rejected), entry, backend, slot, error).past)
  {
    var entry := At(s.queues, group)[0];
    LogPopGrows(s, group, Rejected);
    assert RunOk(cfg, entry.run, View(s, entry.run));
    UnknownNotFinished(cfg, s, entry.run);
  }

  lemma PopHeadGrows(cfg: Config, s: State, group: string)
    requires Inv(cfg, s) && At(s.queues, group) != []
    ensures Grows(s.past, PopHead(cfg, s, group).past)
  {
    var entry := At(s.queues, group)[0];
    var place := PlaceFor(cfg, s, entry);
    LogPopGrows(s, group, place);
    if place != Skipped && place != Dropped {
      match cfg.policy(entry.request)
      case Raised(message) => RejectGrows(cfg, s, group, "unknown", entry.request.slot, message);
      case Selected(backend) =>
        if backend !in cfg.backends {
          RejectGrows(cfg, s, group, backend, "main", "unknown execution backend: " + backend);
        }
    }
  }

  lemma {:induction false} TurnGrows(cfg: Config, s: State, group: string)
    requires Inv(cfg, s) && group in s.workers && s.workers[group].Ready?
    ensures Grows(s.past, Turn(cfg, s, group).past)
    decreases |At(s.queues, group)|
  {
    if At(s.queues, group) != [] {
      var t := PopHead(cfg, s, group);
      PopHeadGrows(cfg, s, group);
      PopHeadInv(cfg, s, group);
      PopHeadShortens(cfg, s, group);
      PopHeadKeepsWorker(cfg, s, group);
      if t.workers[group].Ready? {
        TurnGrows(cfg, t, group);
        GrowsTransitive(s.past, t.past, Turn(cfg, t, group).past);
      }
    }
  }

  lemma FinishGrows(cfg: Config, s: State, group: string)
    requires Inv(cfg, s) && Enabled(s, WorkerResume(group))
    ensures Grows(s.past, FinishRun(cfg, s, group).past)
  {
    var run := s.workers[group].run;
    assert RunOk(cfg, run, View(s, run));
    UnknownNotFinished(cfg, s, run);
    var released := Release(s, run, group);
    assert Grows(s.past, released.past);
  }

  lemma CallEndGrows(cfg: Config, s: State, run: RunId, outcome: Outcome)
    requires Inv(cfg, s) && Enabled(s, CallEnd(run, outcome))
    ensures Grows(s.past, EndCall(cfg, s, run, outcome).past)
  {
    var phase := CallEndMoves(cfg, s, run, outcome);
  }

  lemma CancelGrows(cfg: Config, s: State, run: RunId)
    requires Inv(cfg, s)
    ensures Grows(s.past, Cancel(cfg, s, run).past)
  {
    if CanCancel(s, run) {
      var request := s.requests[run];
      var backend := SafeSelect(cfg, request);
      var u := AfterPeek(cfg, s, request, backend);
      if s.statuses[run] == Queued {
        StoreGrows(cfg, s, u,
                   PlainResult(run, request, backend, Peek(cfg, s, request, backend).sessionId, Cancelled, None));
      } else {
        StoreGrows(cfg, s, MarkForCancel(u, run), CancelResult(cfg, s, run));
      }
    }
  }

  lemma SubmitGrows(s: State, run: RunId, request: Request)
    requires run !in s.past.known
    ensures Grows(s.past, Submit(s, run, request).past)
  {
  }

  lemma StepGrows(cfg: Config, s: State, e: Event)
    requires Inv(cfg, s) && Enabled(s, e)
    ensures Grows(s.past, Apply(cfg, s, e).past)
  {
    match e
    case SubmitEvent(run, request) => SubmitGrows(s, run, request);
    case WorkerTurn(group) => TurnGrows(cfg, s, group);
    case CallEnd(run, outcome) => CallEndGrows(cfg, s, run, outcome);
    case WorkerResume(group) =>
      FinishGrows(cfg, s, group);
      FinishInv(cfg, s, group);
      var t := FinishRun(cfg, s, group);
      TurnGrows(cfg, t, group);
      GrowsTransitive(s.past, t.past, Turn(cfg, t, group).past);
    case CancelEvent(run) => CancelGrows(cfg, s, run);
    case _ =>
  }

  lemma {:induction false} RunGrows(cfg: Config, states: seq<State>, events: seq<Event>, i: nat, j: nat)
    requires IsRun(cfg, states, events) && i <= j < |states|
    ensures Grows(states[i].past, states[j].past)
    decreases j
  {
    if i < j {
      RunGrows(cfg, states, events, i, j - 1);
      RunInv(cfg, states, events, j - 1);
      assert Enabled(states[j - 1], events[j - 1]) && states[j - 1 + 1] == Apply(cfg, states[j - 1], events[j - 1]);
      StepGrows(cfg, states[j - 1], events[j - 1]);
      GrowsTransitive(states[i].past, states[j - 1].past, states[j].past);
    }
  }

  // ---- stages ---------------------------------------------------------

  datatype Stage = Absent | InQueue | InProgress | Ended(result: Result)

  function StageOf(s: State, run: RunId): Stage {
    if run !in s.past.known then Absent
    else if FinalOf(s, run).Some? then Ended(FinalOf(s, run).value)
    else if PlaceOf(s, run) == Started then InProgress
    else InQueue
  }

  /** queued, then running, then terminal, or straight from queued to terminal; a terminal result never changes. */
  predicate Forward(before: Stage, after: Stage) {
    match before
    case Absent => true
    case InQueue => !after.Absent?
    case InProgress => after.InProgress? || after.Ended?
    case Ended(_) => after == before
  }

  /**
   What `get_status` and `get_run_snapshot` show is the stage and what the run
   has got so far, except that an evicted run is forgotten.
   */
  lemma StatusShowsStage(cfg: Config, s: State, run: RunId)
    requires Inv(cfg, s)
    ensures match StageOf(s, run)
            case Absent => run !in s.statuses
            case InQueue => Lookup(s.statuses, run) == Some(Queued)
            case InProgress => Lookup(s.statuses, run) == Some(Running)
            case Ended(result) =>
              && (run in s.statuses <==> Retained(s.past.terminals, s.past.finishedAt, s.order, run))
              && (run in s.statuses ==> s.statuses[run] == result.status)
    ensures run in s.snapshots <==> run in s.statuses
    ensures run in s.snapshots ==>
              match StageOf(s, run)
              case Absent => false
              case InQueue => ShowsLive(s.snapshots[run], s.past.known[run].request, Queued, None)
              case InProgress =>
                && run in s.tasks
                && ShowsLive(s.snapshots[run], s.past.known[run].request, Running, Some(s.tasks[run]))
              case Ended(result) => ShowsResult(s.snapshots[run], result)
  {
    assert RunOk(cfg, run, View(s, run));
    assert RowOk(s.past.terminals, s.past.finishedAt, s.requests, CacheOf(s), run);
  }

  lemma StageForward(cfg: Config, s: State, t: State, run: RunId)
    requires Inv(cfg, s) && Inv(cfg, t) && Grows(s.past, t.past)
    ensures Forward(StageOf(s, run), StageOf(t, run))
  {
    assert RunOk(cfg, run, View(s, run)) && RunOk(cfg, run, View(t, run));
    if run in s.past.known {
      assert t.past.known[run] == s.past.known[run];
      var group := s.past.known[run].request.group;
      assert At(s.past.popped, group) <= At(t.past.popped, group);
      if FinalOf(s, run).Some? {
        assert FinalOf(t, run) == FinalOf(s, run);
      } else if PlaceOf(s, run) == Started {
        assert PlaceOf(t, run) == Started;
      }
    }
  }

  /** A submitted run waits in its group's queue. */
  lemma SubmitWaits(cfg: Config, s: State, run: RunId, request: Request)
    requires Inv(cfg, s) && run !in s.past.known
    ensures StageOf(Submit(s, run, request), run) == InQueue
  {
    assert GroupOk(ViewGroup(s, request.group)) && RunOk(cfg, run, View(s, run));
    UnknownNotFinished(cfg, s, run);
  }

  lemma GroupPlaces(cfg: Config, s: State, run: RunId)
    requires Inv(cfg, s) && run in s.past.known
    ensures var popped := At(s.past.popped, s.past.known[run].request.group);
            PlaceOf(s, run) != Waiting <==> s.past.known[run].index < |popped|
  {
    var group := s.past.known[run].request.group;
    assert GroupOk(ViewGroup(s, group));
    assert ViewGroup(s, group).popped == At(s.past.popped, group);
  }

  /** Main result: in any run of the system, every run's stage only moves forward. */
  lemma StatusMovesForward(cfg: Config, states: seq<State>, events: seq<Event>, i: nat, j: nat, run: RunId)
    requires IsRun(cfg, states, events) && i <= j < |states|
    ensures Forward(StageOf(states[i], run), StageOf(states[j], run))
  {
    RunInv(cfg, states, events, i);
    RunInv(cfg, states, events, j);
    RunGrows(cfg, states, events, i, j);
    StageForward(cfg, states[i], states[j], run);
  }

  /**
   Main result: in every state of every run, a run id occurs at most once among
   the stored terminal results; a run whose waiter was not cancelled has its
   future resolved exactly when it ended, with exactly the stored result; and
   what was delivered is never changed later.
   */
  lemma CompletesExactlyOnce(cfg: Config, states: seq<State>, events: seq<Event>, i: nat, j: nat, run: RunId)
    requires IsRun(cfg, states, events) && i <= j < |states|
    ensures forall a, b | 0 <= a < b < |states[j].past.terminals| ::
              states[j].past.terminals[a].run != states[j].past.terminals[b].run
    ensures states[i].past.terminals <= states[j].past.terminals
    ensures run in states[j].past.delivered ==> StageOf(states[j], run) == Ended(states[j].past.delivered[run])
    ensures StageOf(states[j], run).Ended? ==>
              (run in states[j].past.delivered <==> run !in states[j].past.abandoned)
    ensures run in states[i].past.delivered ==>
              Lookup(states[j].past.delivered, run) == Lookup(states[i].past.delivered, run)
  {
    RunInv(cfg, states, events, j);
    RunGrows(cfg, states, events, i, j);
    assert RunOk(cfg, run, View(states[j], run));
    assert LogOk(states[j].past.terminals, states[j].past.finishedAt);
  }
}
