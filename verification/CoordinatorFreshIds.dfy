/**
 The ids of fresh runs on backends that keep no sessions: each is drawn when
 its run starts, and no task of that slot had it before.
 */
module CoordinatorFreshIds {
  import opened Wrappers
  import opened Execution
  import opened WorkspaceLifecycle
  import opened CoordinatorSteps
  import opened CoordinatorInvariant
  import opened CoordinatorPreservation
  import opened CoordinatorHistory
  import opened CoordinatorSessions

  /** A fresh run on a backend that keeps no sessions. */
  predicate IsAdHoc(task: ExecTask) {
    task.backend != OPENAI && task.request.freshSession
  }

  ghost predicate DrawnBetween(cfg: Config, task: ExecTask, low: nat, high: nat) {
    exists n: nat :: low <= n < high && task.sessionId == cfg.adHocId(task.key, n)
  }

  /** Two states of one task. */
  predicate SameId(before: ExecTask, after: ExecTask) {
    && after.request == before.request && after.backend == before.backend
    && after.key == before.key && after.sessionId == before.sessionId
  }

  /** Every ad hoc task is an old one, or has an id drawn since. */
  ghost predicate DrawsFresh(cfg: Config, s: State, t: State) {
    && s.adHocDraws <= t.adHocDraws
    && forall run | run in t.tasks && IsAdHoc(t.tasks[run]) ::
         || (run in s.tasks && SameId(s.tasks[run], t.tasks[run]))
         || DrawnBetween(cfg, t.tasks[run], s.adHocDraws, t.adHocDraws)
  }

  lemma DrawsTransitive(cfg: Config, a: State, b: State, c: State)
    requires DrawsFresh(cfg, a, b) && DrawsFresh(cfg, b, c)
    ensures DrawsFresh(cfg, a, c)
  {
    forall run | run in c.tasks && IsAdHoc(c.tasks[run])
      ensures (run in a.tasks && SameId(a.tasks[run], c.tasks[run]))
              || DrawnBetween(cfg, c.tasks[run], a.adHocDraws, c.adHocDraws)
    {
      if run in b.tasks && SameId(b.tasks[run], c.tasks[run]) {
        assert IsAdHoc(b.tasks[run]);
      }
    }
  }

  lemma StartDraws(cfg: Config, s: State, entry: Entry, backend: string)
    ensures DrawsFresh(cfg, s, StartEntry(cfg, s, entry, backend))
  {
    var task := StartEntry(cfg, s, entry, backend).tasks[entry.run];
    if IsAdHoc(task) {
      assert task.sessionId == cfg.adHocId(task.key, s.adHocDraws);
    }
  }

  /** What stores a result keeps every task, and draws at most for a peek. */
  lemma StoreDraws(cfg: Config, s: State, u: State, result: Result)
    requires s.adHocDraws <= u.adHocDraws
    requires forall run | run in u.tasks :: run in s.tasks && SameId(s.tasks[run], u.tasks[run])
    ensures DrawsFresh(cfg, s, StoreTerminal(cfg.maxCompleted, u, result))
  {
  }

  lemma PopHeadDraws(cfg: Config, s: State, group: string)
    requires At(s.queues, group) != []
    ensures DrawsFresh(cfg, s, PopHead(cfg, s, group))
  {
    var entry := At(s.queues, group)[0];
    var place := PlaceFor(cfg, s, entry);
    var t := LogPop(s, entry, group, place);
    assert DrawsFresh(cfg, s, t);
    if place != Skipped && place != Dropped {
      match cfg.policy(entry.request)
      case Raised(message) => RejectDraws(cfg, t, entry, "unknown", entry.request.slot, message);
      case Selected(backend) =>
        if backend in cfg.backends {
          StartDraws(cfg, t, entry, backend);
        } else {
          RejectDraws(cfg, t, entry, backend, "main", "unknown execution backend: " + backend);
        }
    }
    DrawsTransitive(cfg, s, t, PopHead(cfg, s, group));
  }

  lemma RejectDraws(cfg: Config, s: State, entry: Entry, backend: string, slot: string, error: string)
    ensures DrawsFresh(cfg, s, RejectEntry(cfg, s, entry, backend, slot, error))
  {
    var peek := Peek(cfg, s, entry.request, backend);
    StoreDraws(cfg, s, s.(store := peek.store, adHocDraws := peek.adHocDraws),
               PlainResult(entry.run, entry.request, backend, peek.sessionId, Failed, Some(error)).(slot := slot));
  }

  lemma {:induction false} TurnDraws(cfg: Config, s: State, group: string)
    ensures DrawsFresh(cfg, s, Turn(cfg, s, group))
    decreases |At(s.queues, group)|
  {
    if At(s.queues, group) != [] {
      var t := PopHead(cfg, s, group);
      PopHeadDraws(cfg, s, group);
      PopHeadShortens(cfg, s, group);
      if !(group in t.workers && t.workers[group].Awaiting?) {
        TurnDraws(cfg, t, group);
        DrawsTransitive(cfg, s, t, Turn(cfg, t, group));
      }
    }
  }

  lemma FinishDraws(cfg: Config, s: State, group: string)
    requires Enabled(s, WorkerResume(group))
    ensures DrawsFresh(cfg, s, FinishRun(cfg, s, group))
  {
    var run := s.workers[group].run;
    assert DrawsFresh(cfg, s, Release(s, run, group));
    if run !in s.cancelled && s.tasks[run].phase.Finished? {
      StoreDraws(cfg, s, Release(s, run, group), s.tasks[run].phase.result);
    }
  }

  lemma CancelDraws(cfg: Config, s: State, run: RunId)
    ensures DrawsFresh(cfg, s, Cancel(cfg, s, run))
  {
    if CanCancel(s, run) {
      var request := s.requests[run];
      var backend := SafeSelect(cfg, request);
      var t := AfterPeek(cfg, s, request, backend);
      if s.statuses[run] == Queued {
        StoreDraws(cfg, s, t,
                   PlainResult(run, request, backend, Peek(cfg, s, request, backend).sessionId, Cancelled, None));
      } else {
        StoreDraws(cfg, s, MarkForCancel(t, run), CancelResult(cfg, s, run));
      }
    }
  }

  lemma CallEndDraws(cfg: Config, s: State, run: RunId, outcome: Outcome)
    requires Inv(cfg, s) && Enabled(s, CallEnd(run, outcome))
    ensures DrawsFresh(cfg, s, EndCall(cfg, s, run, outcome))
  {
    var phase := CallEndMoves(cfg, s, run, outcome);
    CallEndCounts(cfg, s, run, outcome);
    MoveDraws(cfg, s, EndCall(cfg, s, run, outcome), run, phase);
  }

  lemma MoveDraws(cfg: Config, s: State, t: State, run: RunId, phase: Phase)
    requires PhaseMove(s, t, run, phase) && s.adHocDraws <= t.adHocDraws
    ensures DrawsFresh(cfg, s, t)
  {
  }

  lemma CallEndCounts(cfg: Config, s: State, run: RunId, outcome: Outcome)
    requires Enabled(s, CallEnd(run, outcome))
    ensures s.adHocDraws <= EndCall(cfg, s, run, outcome).adHocDraws
  {
    if s.tasks[run].phase.FirstCall? {
      FirstCallCounts(cfg, s, run, outcome);
    }
  }

  lemma FirstCallCounts(cfg: Config, s: State, run: RunId, outcome: Outcome)
    requires run in s.tasks
    ensures s.adHocDraws <= EndFirstCall(cfg, s, run, outcome).adHocDraws
  {
    var task := s.tasks[run];
    if !outcome.RuntimeRaised? {
      ConcludeCounts(s, run, CallResult(run, task, task.sessionId, outcome));
    } else if ShouldRetry(task, outcome.resumeFailed) {
      RetryCounts(cfg, s, run, outcome.message);
    }
  }

  lemma ConcludeCounts(s: State, run: RunId, result: Result)
    requires run in s.tasks
    ensures ConcludeTask(s, run, result).adHocDraws == s.adHocDraws
  {
  }

  lemma RetryCounts(cfg: Config, s: State, run: RunId, message: string)
    requires run in s.tasks
    ensures s.adHocDraws <= RetryTask(cfg, s, run, message).adHocDraws
  {
  }

  lemma StepDraws(cfg: Config, s: State, e: Event)
    requires Inv(cfg, s) && Enabled(s, e)
    ensures DrawsFresh(cfg, s, Apply(cfg, s, e))
  {
    match e
    case SubmitEvent(_, _) =>
    case WorkerTurn(group) => TurnDraws(cfg, s, group);
    case WorkerResume(group) =>
      FinishDraws(cfg, s, group);
      TurnDraws(cfg, FinishRun(cfg, s, group), group);
      DrawsTransitive(cfg, s, FinishRun(cfg, s, group), Apply(cfg, s, e));
    case TaskBegin(_) =>
    case CallEnd(run, outcome) => CallEndDraws(cfg, s, run, outcome);
    case TaskUnwind(_) =>
    case CancelEvent(run) => CancelDraws(cfg, s, run);
    case WaiterCancelled(_) =>
  }

  // ---- over whole runs ------------------------------------------------

  lemma RunStepDraws(cfg: Config, states: seq<State>, events: seq<Event>, j: nat)
    requires IsRun(cfg, states, events) && j < |events|
    ensures DrawsFresh(cfg, states[j], states[j + 1])
  {
    RunInv(cfg, states, events, j);
    assert Enabled(states[j], events[j]) && states[j + 1] == Apply(cfg, states[j], events[j]);
    StepDraws(cfg, states[j], events[j]);
  }

  lemma {:induction false} RunDraws(cfg: Config, states: seq<State>, events: seq<Event>, i: nat, j: nat)
    requires IsRun(cfg, states, events) && i <= j < |states|
    ensures DrawsFresh(cfg, states[i], states[j])
    decreases j
  {
    if i < j {
      RunDraws(cfg, states, events, i, j - 1);
      RunStepDraws(cfg, states, events, j - 1);
      DrawsTransitive(cfg, states[i], states[j - 1], states[j]);
    }
  }

  /**
   Main result: a fresh run on a backend that keeps no sessions is given an id
   that no other such run of its key has had at any earlier point of the run
   of the system, and never the bare key that the runs that are not fresh use.
   */
  lemma FreshIdIsNew(cfg: Config, states: seq<State>, events: seq<Event>, i: nat, j: nat, run: RunId, other: RunId)
    requires IsRun(cfg, states, events) && i <= j < |states| && NeverRepeats(cfg.adHocId)
    requires run in states[j].tasks && run !in states[i].tasks && IsAdHoc(states[j].tasks[run])
    requires other in states[i].tasks && states[i].tasks[other].backend != OPENAI
    requires states[i].tasks[other].key == states[j].tasks[run].key
    ensures states[j].tasks[run].sessionId != states[i].tasks[other].sessionId
    ensures states[j].tasks[run].sessionId != states[j].tasks[run].key
  {
    RunDraws(cfg, states, events, i, j);
    FirstDraws(cfg, states, events, i);
    PlainUsesKey(cfg, states, events, i);
  }

  lemma FirstDraws(cfg: Config, states: seq<State>, events: seq<Event>, i: nat)
    requires IsRun(cfg, states, events) && i < |states|
    ensures forall run | run in states[i].tasks && IsAdHoc(states[i].tasks[run]) ::
              DrawnBetween(cfg, states[i].tasks[run], 0, states[i].adHocDraws)
  {
    RunDraws(cfg, states, events, 0, i);
    assert states[0].tasks == map[] && states[0].adHocDraws == 0;
  }

  // ---- runs that are not fresh ----------------------------------------

  /** A task on a backend that keeps no sessions has the bare key unless its run is fresh. */
  ghost predicate PlainIds(s: State) {
    forall run | run in s.tasks && s.tasks[run].backend != OPENAI && !s.tasks[run].request.freshSession ::
      s.tasks[run].sessionId == s.tasks[run].key
  }

  lemma StepPlain(cfg: Config, s: State, e: Event)
    requires Inv(cfg, s) && Enabled(s, e) && PlainIds(s)
    ensures PlainIds(Apply(cfg, s, e))
  {
    if !IsTaskEvent(e) {
      OtherEventsAreQuiet(cfg, s, e);
    } else if e.CallEnd? {
      var phase := CallEndMoves(cfg, s, e.run, e.outcome);
    }
  }

  lemma RunStepPlain(cfg: Config, states: seq<State>, events: seq<Event>, j: nat)
    requires IsRun(cfg, states, events) && j < |events| && PlainIds(states[j])
    ensures PlainIds(states[j + 1])
  {
    RunInv(cfg, states, events, j);
    assert Enabled(states[j], events[j]) && states[j + 1] == Apply(cfg, states[j], events[j]);
    StepPlain(cfg, states[j], events[j]);
  }

  /** Main result: without a fresh session such a backend is always given the slot's bare key. */
  lemma {:induction false} PlainUsesKey(cfg: Config, states: seq<State>, events: seq<Event>, i: nat)
    requires IsRun(cfg, states, events) && i < |states|
    ensures PlainIds(states[i])
    decreases i
  {
    if i > 0 {
      PlainUsesKey(cfg, states, events, i - 1);
      RunStepPlain(cfg, states, events, i - 1);
    }
  }
}
