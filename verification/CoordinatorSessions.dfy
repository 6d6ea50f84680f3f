/**
 Session continuity: which session id a run gets, who may change the store
 entry it was resolved from, and how recovery replaces an id.
 */
module CoordinatorSessions {
  import opened Wrappers
  import opened Execution
  import opened WorkspaceLifecycle
  import opened CoordinatorSteps
  import opened CoordinatorInvariant
  import opened CoordinatorPreservation
  import opened CoordinatorHistory

  // ---- what a step may do to tasks and to the store -------------------

  /** A task may be told to stop; nothing else about it changes. */
  predicate SameTask(before: ExecTask, after: ExecTask) {
    after == before.(cancelRequested := after.cancelRequested)
  }

  /** The id a task was given fits the session state it was resolved from. */
  ghost predicate IdFits(cfg: Config, task: ExecTask, draws: nat) {
    if task.backend != OPENAI then
      if task.request.freshSession
      then exists n: nat :: task.sessionId == cfg.adHocId(task.key, n)
      else task.sessionId == task.key
    else if !task.request.freshSession && task.seen.sessionId.Some? && task.seen.backend == Some(OPENAI)
    then task.sessionId == task.seen.sessionId.value
    else if task.seen.sessionId.None? && !task.seen.everCommitted
    then task.sessionId == task.key
    else exists n: nat :: n < draws && task.sessionId == cfg.factory(task.key, n)
  }

  /** A task that was just created, resolved from what the store shows. */
  ghost predicate NewTask(cfg: Config, store: Store, task: ExecTask) {
    && task.phase.Scheduled?
    && task.seen == GetState(store, task.key)
    && IdFits(cfg, task, store.draws)
  }

  /** The observable store is untouched, no call was made, and every task is an old one or just created. */
  ghost predicate Quiet(cfg: Config, s: State, t: State) {
    && (forall key {:trigger GetState(t.store, key)} :: GetState(t.store, key) == GetState(s.store, key))
    && s.store.draws <= t.store.draws
    && t.past.calls == s.past.calls
    && (forall run | run in t.tasks ::
          (run in s.tasks && SameTask(s.tasks[run], t.tasks[run])) || NewTask(cfg, t.store, t.tasks[run]))
  }

  lemma QuietTransitive(cfg: Config, a: State, b: State, c: State)
    requires Quiet(cfg, a, b) && Quiet(cfg, b, c)
    ensures Quiet(cfg, a, c)
  {
  }

  lemma ResolveInvisible(cfg: Config, store: Store, draws: nat, request: Request, backend: string, freshSession: bool)
    ensures var r := Resolve(cfg, store, draws, request, backend, freshSession);
            && (forall key {:trigger GetState(r.store, key)} :: GetState(r.store, key) == GetState(store, key))
            && store.draws <= r.store.draws
  {
  }

  /** A task that would be created for a request that resolved this id; its session state is what the store shows. */
  function Resolving(store: Store, request: Request, backend: string, sessionId: string): ExecTask {
    ExecTask(request, backend, KeyOf(request), sessionId, Scheduled, false, GetState(store, KeyOf(request)))
  }

  /** Resolving an id gives what the store and the request's flag call for. */
  lemma ResolveFits(cfg: Config, store: Store, adHocDraws: nat, request: Request, backend: string)
    ensures var r := Resolve(cfg, store, adHocDraws, request, backend, request.freshSession);
            IdFits(cfg, Resolving(store, request, backend, r.sessionId), r.store.draws)
  {
    var r := Resolve(cfg, store, adHocDraws, request, backend, request.freshSession);
    if backend == OPENAI && r.store.draws == store.draws + 1 {
      assert r.sessionId == cfg.factory(KeyOf(request), store.draws);
    }
    if backend != OPENAI && request.freshSession {
      assert r.sessionId == cfg.adHocId(KeyOf(request), adHocDraws);
    }
  }

  lemma StartIsQuiet(cfg: Config, s: State, entry: Entry, backend: string)
    ensures Quiet(cfg, s, StartEntry(cfg, s, entry, backend))
  {
    var t := StartEntry(cfg, s, entry, backend);
    ResolveInvisible(cfg, s.store, s.adHocDraws, entry.request, backend, entry.request.freshSession);
    var task := t.tasks[entry.run];
    assert task.seen == GetState(s.store, task.key);
    assert IdFits(cfg, task, t.store.draws) by {
      ResolveFits(cfg, s.store, s.adHocDraws, entry.request, backend);
    }
  }

  lemma RejectIsQuiet(cfg: Config, s: State, entry: Entry, backend: string, slot: string, error: string)
    ensures Quiet(cfg, s, RejectEntry(cfg, s, entry, backend, slot, error))
  {
    ResolveInvisible(cfg, s.store, s.adHocDraws, entry.request, backend, entry.request.freshSession);
  }

  lemma PopHeadIsQuiet(cfg: Config, s: State, group: string)
    requires At(s.queues, group) != []
    ensures Quiet(cfg, s, PopHead(cfg, s, group))
  {
    var entry := At(s.queues, group)[0];
    var place := PlaceFor(cfg, s, entry);
    var t := LogPop(s, entry, group, place);
    assert Quiet(cfg, s, t);
    if place != Skipped && place != Dropped {
      match cfg.policy(entry.request)
      case Raised(message) =>
        RejectIsQuiet(cfg, t, entry, "unknown", entry.request.slot, message);
        QuietTransitive(cfg, s, t, PopHead(cfg, s, group));
      case Selected(backend) =>
        if backend in cfg.backends {
          StartIsQuiet(cfg, t, entry, backend);
        } else {
          RejectIsQuiet(cfg, t, entry, backend, "main", "unknown execution backend: " + backend);
        }
        QuietTransitive(cfg, s, t, PopHead(cfg, s, group));
    }
  }

  lemma {:induction false} TurnIsQuiet(cfg: Config, s: State, group: string)
    ensures Quiet(cfg, s, Turn(cfg, s, group))
    decreases |At(s.queues, group)|
  {
    if At(s.queues, group) != [] {
      var t := PopHead(cfg, s, group);
      PopHeadIsQuiet(cfg, s, group);
      PopHeadShortens(cfg, s, group);
      if !(group in t.workers && t.workers[group].Awaiting?) {
        TurnIsQuiet(cfg, t, group);
        QuietTransitive(cfg, s, t, Turn(cfg, t, group));
      }
    }
  }

  /** Storing a result touches neither tasks nor store. */
  lemma StoreIsQuiet(cfg: Config, s: State, u: State, result: Result)
    requires u.past.calls == s.past.calls && s.store.draws <= u.store.draws
    requires forall key {:trigger GetState(u.store, key)} :: GetState(u.store, key) == GetState(s.store, key)
    requires forall run | run in u.tasks :: run in s.tasks && SameTask(s.tasks[run], u.tasks[run])
    ensures Quiet(cfg, s, StoreTerminal(cfg.maxCompleted, u, result))
  {
  }

  lemma ReleaseIsQuiet(cfg: Config, s: State, run: RunId, group: string)
    ensures Quiet(cfg, s, Release(s, run, group))
  {
  }

  lemma FinishIsQuiet(cfg: Config, s: State, group: string)
    requires Enabled(s, WorkerResume(group))
    ensures Quiet(cfg, s, FinishRun(cfg, s, group))
  {
    var run := s.workers[group].run;
    ReleaseIsQuiet(cfg, s, run, group);
    if run !in s.cancelled && s.tasks[run].phase.Finished? {
      StoreIsQuiet(cfg, s, Release(s, run, group), s.tasks[run].phase.result);
    }
  }

  lemma CancelIsQuiet(cfg: Config, s: State, run: RunId)
    ensures Quiet(cfg, s, Cancel(cfg, s, run))
  {
    if CanCancel(s, run) {
      var request := s.requests[run];
      var backend := SafeSelect(cfg, request);
      var peek := Peek(cfg, s, request, backend);
      var u := AfterPeek(cfg, s, request, backend);
      ResolveInvisible(cfg, s.store, s.adHocDraws, request, backend, request.freshSession);
      if s.statuses[run] == Queued {
        StoreIsQuiet(cfg, s, u, PlainResult(run, request, backend, peek.sessionId, Cancelled, None));
      } else {
        StoreIsQuiet(cfg, s, MarkForCancel(u, run), CancelResult(cfg, s, run));
      }
    }
  }

  /** The only events that call a backend, move a task, or change the observable store. */
  predicate IsTaskEvent(e: Event) {
    e.TaskBegin? || e.CallEnd? || e.TaskUnwind?
  }

  lemma OtherEventsAreQuiet(cfg: Config, s: State, e: Event)
    requires Enabled(s, e) && !IsTaskEvent(e)
    ensures Quiet(cfg, s, Apply(cfg, s, e))
  {
    match e
    case SubmitEvent(run, request) =>
    case WorkerTurn(group) => TurnIsQuiet(cfg, s, group);
    case WorkerResume(group) =>
      FinishIsQuiet(cfg, s, group);
      TurnIsQuiet(cfg, FinishRun(cfg, s, group), group);
      QuietTransitive(cfg, s, FinishRun(cfg, s, group), Turn(cfg, FinishRun(cfg, s, group), group));
    case CancelEvent(run) => CancelIsQuiet(cfg, s, run);
    case WaiterCancelled(run) =>
  }

  // ---- nobody disturbs a running session ------------------------------

  /** A request that would be executed by a backend that keeps sessions, and so may change its key's entry. */
  predicate KeepsSession(cfg: Config, request: Request) {
    Selectable(cfg, request) && cfg.policy(request).backend == OPENAI
  }

  /** Two requests that can be executing at the same time, the first changing what the second resolved. */
  predicate Clash(cfg: Config, q1: Request, q2: Request) {
    KeepsSession(cfg, q1) && Selectable(cfg, q2) && KeyOf(q1) == KeyOf(q2) && q1.group != q2.group
  }

  ghost predicate NoClash(cfg: Config, s: State) {
    forall r1, r2 | r1 in s.past.known && r2 in s.past.known ::
      !Clash(cfg, s.past.known[r1].request, s.past.known[r2].request)
  }

  /** An execution task that keeps a session shares its workspace key with no other. */
  lemma KeysApart(cfg: Config, s: State, r1: RunId, r2: RunId)
    requires Inv(cfg, s) && NoClash(cfg, s) && r1 in s.tasks && r2 in s.tasks && r1 != r2
    requires s.tasks[r1].backend == OPENAI
    ensures s.tasks[r1].key != s.tasks[r2].key
  {
    assert RunOk(cfg, r1, View(s, r1)) && RunOk(cfg, r2, View(s, r2));
    assert !Clash(cfg, s.past.known[r1].request, s.past.known[r2].request);
  }

  /**
   While a run is in its first attempt the store still shows what its id was
   resolved from; while it is in its second, the store shows the invalidated
   entry and the run uses an id the factory drew for it.
   */
  ghost predicate SeenRow(cfg: Config, store: Store, task: ExecTask) {
    && IdFits(cfg, task, store.draws)
    && match task.phase
       case Scheduled => GetState(store, task.key) == task.seen
       case FirstCall => GetState(store, task.key) == task.seen
       case SecondCall(retryId) =>
         && GetState(store, task.key) == INVALIDATED
         && exists n: nat :: n < store.draws && retryId == cfg.factory(task.key, n)
       case _ => true
  }

  ghost predicate SeenOk(cfg: Config, s: State) {
    forall run | run in s.tasks :: SeenRow(cfg, s.store, s.tasks[run])
  }

  lemma QuietKeepsSeen(cfg: Config, s: State, t: State)
    requires Quiet(cfg, s, t) && SeenOk(cfg, s)
    ensures SeenOk(cfg, t)
  {
  }

  /**
   What a task's new phase says about the store: a retry invalidated the key and
   drew an id, an end committed or not.
   */
  ghost predicate StoreMove(cfg: Config, s: State, t: State, run: RunId, phase: Phase)
    requires run in s.tasks
  {
    var task := s.tasks[run];
    match phase
    case SecondCall(retryId) =>
      && task.phase.FirstCall? && ShouldRetry(task, true)
      && retryId == cfg.factory(task.key, s.store.draws)
      && t.store == Store(s.store.states[task.key := INVALIDATED], s.store.draws + 1)
    case Finished(result) =>
      var committed := SessionState(Some(result.sessionId), Some(OPENAI), true);
      t.store == if task.backend == OPENAI && result.status == Completed
                 then s.store.(states := s.store.states[task.key := committed])
                 else s.store
    case _ => false
  }

  /** The session id the current call was given. */
  function CurrentId(task: ExecTask): string {
    if task.phase.SecondCall? then task.phase.retryId else task.sessionId
  }

  /** A result that says only why the run failed. */
  predicate SaysOnly(result: Result, error: string) {
    result.status == Failed && result.finalOutput == None && result.error == Some(error) && result.timeoutMs == None
  }

  /** What a run whose last call ended this way reports: exactly what the backend said, for the id it was given. */
  predicate Reports(task: ExecTask, outcome: Outcome, result: Result) {
    && (!outcome.Full? ==>
          && result.group == task.request.group && result.slot == task.request.slot
          && result.backend == task.backend && result.sessionId == CurrentId(task))
    && match outcome
       case Full(given) => result == given
       case Dict(status, finalOutput, error, timeoutMs) =>
         && result.status == status && result.finalOutput == finalOutput
         && result.error == error && result.timeoutMs == timeoutMs
       case TimeoutRaised =>
         && result.status == TimedOut && result.timeoutMs == task.request.timeoutMs
         && result.finalOutput == None && result.error == None
       case RuntimeRaised(message, _) => SaysOnly(result, message)
       case OtherRaised(message) => SaysOnly(result, message)
  }

  /** How the outcome decides the next phase and the reported result. */
  predicate OutcomeFits(task: ExecTask, outcome: Outcome, phase: Phase) {
    && (phase.SecondCall? <==>
          task.phase.FirstCall? && outcome.RuntimeRaised? && ShouldRetry(task, outcome.resumeFailed))
    && (phase.Finished? ==> Reports(task, outcome, phase.result))
  }

  lemma RetryStore(cfg: Config, s: State, run: RunId, message: string)
    requires run in s.tasks && ShouldRetry(s.tasks[run], true) && s.tasks[run].phase.FirstCall?
    requires s.tasks[run].key == KeyOf(s.tasks[run].request)
    ensures var t := RetryTask(cfg, s, run, message);
            && run in t.tasks && t.tasks[run].phase.SecondCall?
            && StoreMove(cfg, s, t, run, t.tasks[run].phase)
  {
  }

  lemma FirstCallReturns(cfg: Config, s: State, run: RunId, outcome: Outcome)
    requires run in s.tasks && s.tasks[run].phase.FirstCall? && !outcome.RuntimeRaised?
    ensures var t := EndFirstCall(cfg, s, run, outcome);
            && run in t.tasks && StoreMove(cfg, s, t, run, t.tasks[run].phase)
            && OutcomeFits(s.tasks[run], outcome, t.tasks[run].phase)
  {
  }

  lemma FirstCallStore(cfg: Config, s: State, run: RunId, outcome: Outcome, phase: Phase)
    requires run in s.tasks && s.tasks[run].phase.FirstCall? && s.tasks[run].key == KeyOf(s.tasks[run].request)
    requires var t := EndFirstCall(cfg, s, run, outcome); run in t.tasks && t.tasks[run].phase == phase
    ensures StoreMove(cfg, s, EndFirstCall(cfg, s, run, outcome), run, phase)
    ensures OutcomeFits(s.tasks[run], outcome, phase)
  {
    if !outcome.RuntimeRaised? {
      FirstCallReturns(cfg, s, run, outcome);
    } else if ShouldRetry(s.tasks[run], outcome.resumeFailed) {
      RetryStore(cfg, s, run, outcome.message);
    }
  }

  lemma SecondCallStore(cfg: Config, s: State, run: RunId, retryId: string, outcome: Outcome, phase: Phase)
    requires run in s.tasks && s.tasks[run].phase == SecondCall(retryId)
    requires var t := EndSecondCall(s, run, retryId, outcome); run in t.tasks && t.tasks[run].phase == phase
    ensures StoreMove(cfg, s, EndSecondCall(s, run, retryId, outcome), run, phase)
    ensures OutcomeFits(s.tasks[run], outcome, phase)
  {
  }

  /** The end of a call, seen as a move of one task and of the store. */
  lemma CallEndIs(cfg: Config, s: State, run: RunId, outcome: Outcome) returns (phase: Phase)
    requires Inv(cfg, s) && Enabled(s, CallEnd(run, outcome))
    ensures var t := EndCall(cfg, s, run, outcome);
            PhaseMove(s, t, run, phase) && CallsFit(s, t, run, phase) && StoreMove(cfg, s, t, run, phase)
    ensures OutcomeFits(s.tasks[run], outcome, phase)
  {
    TaskKeyIs(cfg, s, run);
    phase := CallEndMoves(cfg, s, run, outcome);
    if s.tasks[run].phase.FirstCall? {
      FirstCallStore(cfg, s, run, outcome, phase);
    } else {
      SecondCallStore(cfg, s, run, s.tasks[run].phase.retryId, outcome, phase);
    }
  }

  lemma TaskKeyIs(cfg: Config, s: State, run: RunId)
    requires Inv(cfg, s) && run in s.tasks
    ensures s.tasks[run].key == KeyOf(s.tasks[run].request)
  {
    assert RunOk(cfg, run, View(s, run));
  }

  /** Neither a commit nor a retry looks different at any other key. */
  lemma OtherKeysKept(cfg: Config, s: State, t: State, run: RunId, phase: Phase, key: string)
    requires run in s.tasks && StoreMove(cfg, s, t, run, phase) && key != s.tasks[run].key
    ensures GetState(t.store, key) == GetState(s.store, key)
    ensures s.store.draws <= t.store.draws
  {
  }

  lemma OtherRowKept(cfg: Config, s: State, t: State, run: RunId, phase: Phase, other: RunId)
    requires PhaseMove(s, t, run, phase) && StoreMove(cfg, s, t, run, phase)
    requires other in s.tasks && other != run
    requires s.tasks[run].backend == OPENAI ==> s.tasks[other].key != s.tasks[run].key
    requires SeenRow(cfg, s.store, s.tasks[other])
    ensures other in t.tasks && SeenRow(cfg, t.store, t.tasks[other])
  {
  }

  lemma OwnRowKept(cfg: Config, s: State, t: State, run: RunId, phase: Phase)
    requires PhaseMove(s, t, run, phase) && StoreMove(cfg, s, t, run, phase)
    requires SeenRow(cfg, s.store, s.tasks[run])
    ensures run in t.tasks && SeenRow(cfg, t.store, t.tasks[run])
  {
  }

  lemma CallEndKeepsSeen(cfg: Config, s: State, run: RunId, outcome: Outcome)
    requires Inv(cfg, s) && Enabled(s, CallEnd(run, outcome)) && NoClash(cfg, s) && SeenOk(cfg, s)
    ensures SeenOk(cfg, EndCall(cfg, s, run, outcome))
  {
    var t := EndCall(cfg, s, run, outcome);
    var phase := CallEndIs(cfg, s, run, outcome);
    OwnRowKept(cfg, s, t, run, phase);
    forall other | other in t.tasks && other != run ensures SeenRow(cfg, t.store, t.tasks[other]) {
      if s.tasks[run].backend == OPENAI {
        KeysApart(cfg, s, run, other);
      }
      OtherRowKept(cfg, s, t, run, phase, other);
    }
  }

  lemma BeginKeepsSeen(cfg: Config, s: State, run: RunId)
    requires run in s.tasks && s.tasks[run].phase.Scheduled? && SeenOk(cfg, s)
    ensures SeenOk(cfg, BeginTask(s, run))
  {
  }

  lemma UnwindKeepsSeen(cfg: Config, s: State, run: RunId)
    requires run in s.tasks && SeenOk(cfg, s)
    ensures SeenOk(cfg, UnwindTask(s, run))
  {
  }

  lemma StepKeepsSeen(cfg: Config, s: State, e: Event)
    requires Inv(cfg, s) && Enabled(s, e) && NoClash(cfg, s) && SeenOk(cfg, s)
    ensures SeenOk(cfg, Apply(cfg, s, e))
  {
    if !IsTaskEvent(e) {
      OtherEventsAreQuiet(cfg, s, e);
      QuietKeepsSeen(cfg, s, Apply(cfg, s, e));
    } else {
      match e
      case CallEnd(run, outcome) => CallEndKeepsSeen(cfg, s, run, outcome);
      case TaskBegin(run) => BeginKeepsSeen(cfg, s, run);
      case TaskUnwind(run) => UnwindKeepsSeen(cfg, s, run);
    }
  }

  /**
   Main result: as long as no two known requests clash, between resolving its
   session id and its own commit or invalidate, no step changes the store
   entry of a run's (group, slot).
   */
  lemma {:induction false} SessionUndisturbed(cfg: Config, states: seq<State>, events: seq<Event>, i: nat)
    requires IsRun(cfg, states, events) && i < |states| && NoClash(cfg, states[i])
    ensures SeenOk(cfg, states[i])
  {
    if i > 0 {
      RunGrows(cfg, states, events, i - 1, i);
      RunInv(cfg, states, events, i - 1);
      SessionUndisturbed(cfg, states, events, i - 1);
      assert Enabled(states[i - 1], events[i - 1]) && states[i - 1 + 1] == Apply(cfg, states[i - 1], events[i - 1]);
      StepKeepsSeen(cfg, states[i - 1], events[i - 1]);
    }
  }

  // ---- ids are drawn, never reused ------------------------------------

  /** Backends that build the whole result report the session id they were given. */
  predicate Echoes(s: State, e: Event) {
    e.CallEnd? && e.outcome.Full? && e.run in s.tasks ==> e.outcome.result.sessionId == CurrentId(s.tasks[e.run])
  }

  ghost predicate IsDrawn(cfg: Config, key: string, id: string, draws: nat) {
    id == key || exists n: nat :: n < draws && id == cfg.factory(key, n)
  }

  /** Every id on record for a key is the bare key or one of the ids already drawn for it. */
  ghost predicate DrawnOk(cfg: Config, s: State) {
    && (forall key {:trigger GetState(s.store, key)} ::
          GetState(s.store, key).sessionId.Some? ==>
            IsDrawn(cfg, key, GetState(s.store, key).sessionId.value, s.store.draws))
    && (forall run | run in s.tasks && s.tasks[run].backend == OPENAI ::
          && IsDrawn(cfg, s.tasks[run].key, s.tasks[run].sessionId, s.store.draws)
          && IsDrawn(cfg, s.tasks[run].key, CurrentId(s.tasks[run]), s.store.draws))
  }

  lemma QuietKeepsDrawn(cfg: Config, s: State, t: State)
    requires Quiet(cfg, s, t) && DrawnOk(cfg, s)
    ensures DrawnOk(cfg, t)
  {
  }

  lemma MoveKeepsDrawn(cfg: Config, s: State, t: State, run: RunId, phase: Phase)
    requires PhaseMove(s, t, run, phase) && StoreMove(cfg, s, t, run, phase) && DrawnOk(cfg, s)
    requires phase.Finished? && phase.result.status == Completed ==> phase.result.sessionId == CurrentId(s.tasks[run])
    ensures DrawnOk(cfg, t) && s.store.draws <= t.store.draws
  {
    var key := s.tasks[run].key;
    forall k | GetState(t.store, k).sessionId.Some?
      ensures IsDrawn(cfg, k, GetState(t.store, k).sessionId.value, t.store.draws)
    {
      if k != key {
        OtherKeysKept(cfg, s, t, run, phase, k);
      }
      assert GetState(s.store, k).sessionId.Some? ==>
          IsDrawn(cfg, k, GetState(s.store, k).sessionId.value, s.store.draws);
    }
    if phase.SecondCall? {
      assert IsDrawn(cfg, key, phase.retryId, t.store.draws);
    }
  }

  lemma StepKeepsDrawn(cfg: Config, s: State, e: Event)
    requires Inv(cfg, s) && Enabled(s, e) && Echoes(s, e) && DrawnOk(cfg, s)
    ensures DrawnOk(cfg, Apply(cfg, s, e)) && s.store.draws <= Apply(cfg, s, e).store.draws
  {
    if !IsTaskEvent(e) {
      OtherEventsAreQuiet(cfg, s, e);
      QuietKeepsDrawn(cfg, s, Apply(cfg, s, e));
    } else if e.CallEnd? {
      var phase := CallEndIs(cfg, s, e.run, e.outcome);
      MoveKeepsDrawn(cfg, s, Apply(cfg, s, e), e.run, phase);
    }
  }

  lemma {:induction false} RunKeepsDrawn(cfg: Config, states: seq<State>, events: seq<Event>, i: nat)
    requires IsRun(cfg, states, events) && i < |states|
    requires forall k | 0 <= k < |events| :: Echoes(states[k], events[k])
    ensures DrawnOk(cfg, states[i])
    ensures i > 0 ==> states[i - 1].store.draws <= states[i].store.draws
  {
    if i > 0 {
      RunKeepsDrawn(cfg, states, events, i - 1);
      RunInv(cfg, states, events, i - 1);
      assert Echoes(states[i - 1], events[i - 1]);
      assert Enabled(states[i - 1], events[i - 1]) && states[i - 1 + 1] == Apply(cfg, states[i - 1], events[i - 1]);
      StepKeepsDrawn(cfg, states[i - 1], events[i - 1]);
    }
  }

  lemma {:induction false} DrawsOnlyGrow(cfg: Config, states: seq<State>, events: seq<Event>, i: nat, j: nat)
    requires IsRun(cfg, states, events) && i <= j < |states|
    requires forall k | 0 <= k < |events| :: Echoes(states[k], events[k])
    ensures states[i].store.draws <= states[j].store.draws
    decreases j
  {
    if i < j {
      DrawsOnlyGrow(cfg, states, events, i, j - 1);
      RunKeepsDrawn(cfg, states, events, j);
    }
  }

  /** A factory that never repeats itself and never returns the bare key. */
  ghost predicate NeverRepeats(factory: Factory) {
    && (forall key, n: nat, m: nat {:trigger factory(key, n), factory(key, m)} ::
          factory(key, n) == factory(key, m) ==> n == m)
    && (forall key, n: nat {:trigger factory(key, n)} :: factory(key, n) != key)
  }

  /**
   Main result: when a resume failure makes a run call its backend again, the
   new id is one that the store has never held for that key and no task of that
   key was ever given, at any earlier point of the run of the system.
   */
  lemma RetryIdIsNew(cfg: Config, states: seq<State>, events: seq<Event>, i: nat, j: nat, run: RunId, message: string)
    requires IsRun(cfg, states, events) && i <= j < |events|
    requires forall k | 0 <= k < |events| :: Echoes(states[k], events[k])
    requires NeverRepeats(cfg.factory)
    requires events[j] == CallEnd(run, RuntimeRaised(message, true))
    requires run in states[j].tasks && states[j].tasks[run].phase.FirstCall? && ShouldRetry(states[j].tasks[run], true)
    ensures run in states[j + 1].tasks && states[j + 1].tasks[run].phase.SecondCall?
    ensures GetState(states[i].store, states[j].tasks[run].key).sessionId
            != Some(states[j + 1].tasks[run].phase.retryId)
    ensures forall other | other in states[i].tasks && states[i].tasks[other].backend == OPENAI
                           && states[i].tasks[other].key == states[j].tasks[run].key ::
              states[j + 1].tasks[run].phase.retryId
              !in {states[i].tasks[other].sessionId, CurrentId(states[i].tasks[other])}
  {
    RunInv(cfg, states, events, j);
    assert Enabled(states[j], events[j]) && states[j + 1] == Apply(cfg, states[j], events[j]);
    var phase := CallEndIs(cfg, states[j], run, RuntimeRaised(message, true));
    RunKeepsDrawn(cfg, states, events, i);
    DrawsOnlyGrow(cfg, states, events, i, j);
    var key := states[j].tasks[run].key;
    assert GetState(states[i].store, key).sessionId.Some? ==>
        IsDrawn(cfg, key, GetState(states[i].store, key).sessionId.value, states[i].store.draws);
  }

  // ---- one session per slot -------------------------------------------

  /** No run asked for a fresh session. */
  ghost predicate NoFresh(s: State) {
    forall run | run in s.past.known :: !s.past.known[run].request.freshSession
  }

  /** No resume failure happens. */
  predicate Resumes(e: Event) {
    e.CallEnd? && e.outcome.RuntimeRaised? ==> !e.outcome.resumeFailed
  }

  predicate BareState(key: string, state: SessionState) {
    state == UNTOUCHED || state == SessionState(Some(key), Some(OPENAI), true)
  }

  predicate AllAre(ids: seq<string>, key: string) {
    forall i | 0 <= i < |ids| :: ids[i] == key
  }

  predicate BareCalls(cfg: Config, s: State, run: RunId) {
    run in s.past.known && cfg.policy(s.past.known[run].request) == Selected(OPENAI) ==>
      AllAre(At(s.past.calls, run), KeyOf(s.past.known[run].request))
  }

  ghost predicate BareOk(cfg: Config, s: State) {
    && (forall key {:trigger GetState(s.store, key)} :: BareState(key, GetState(s.store, key)))
    && (forall run | run in s.tasks && s.tasks[run].backend == OPENAI ::
          s.tasks[run].sessionId == s.tasks[run].key && !s.tasks[run].phase.SecondCall?)
    && (forall run {:trigger BareCalls(cfg, s, run)} :: BareCalls(cfg, s, run))
  }

  lemma QuietKeepsBare(cfg: Config, s: State, t: State)
    requires Inv(cfg, s) && Inv(cfg, t) && Quiet(cfg, s, t) && Grows(s.past, t.past) && BareOk(cfg, s) && NoFresh(t)
    ensures BareOk(cfg, t)
  {
    forall key ensures BareState(key, GetState(t.store, key)) {
      assert GetState(t.store, key) == GetState(s.store, key);
    }
    forall run | run in t.tasks && t.tasks[run].backend == OPENAI
      ensures t.tasks[run].sessionId == t.tasks[run].key && !t.tasks[run].phase.SecondCall?
    {
      assert RunOk(cfg, run, View(t, run));
      assert GetState(t.store, t.tasks[run].key) == GetState(s.store, t.tasks[run].key);
    }
    forall run ensures BareCalls(cfg, t, run) {
      assert BareCalls(cfg, s, run);
      assert RunOk(cfg, run, View(s, run));
    }
  }

  lemma BeginKeepsBare(cfg: Config, s: State, run: RunId)
    requires Inv(cfg, s) && Enabled(s, TaskBegin(run)) && BareOk(cfg, s)
    ensures BareOk(cfg, BeginTask(s, run))
  {
    var t := BeginTask(s, run);
    assert RunOk(cfg, run, View(s, run));
    forall other ensures BareCalls(cfg, t, other) {
      assert BareCalls(cfg, s, other);
    }
  }

  lemma MoveKeepsBare(cfg: Config, s: State, t: State, run: RunId, phase: Phase)
    requires PhaseMove(s, t, run, phase) && CallsFit(s, t, run, phase) && StoreMove(cfg, s, t, run, phase)
    requires BareOk(cfg, s) && !phase.SecondCall?
    requires phase.Finished? && phase.result.status == Completed ==> phase.result.sessionId == CurrentId(s.tasks[run])
    ensures BareOk(cfg, t)
  {
    forall other ensures BareCalls(cfg, t, other) {
      assert BareCalls(cfg, s, other);
      assert At(t.past.calls, other) == At(s.past.calls, other) && t.past.known == s.past.known;
    }
    forall key ensures BareState(key, GetState(t.store, key)) {
      assert BareState(key, GetState(s.store, key));
    }
  }

  lemma OtherKeepsBare(cfg: Config, s: State, e: Event)
    requires Inv(cfg, s) && Enabled(s, e) && BareOk(cfg, s) && !IsTaskEvent(e) && NoFresh(Apply(cfg, s, e))
    ensures BareOk(cfg, Apply(cfg, s, e))
  {
    StepInv(cfg, s, e);
    StepGrows(cfg, s, e);
    OtherEventsAreQuiet(cfg, s, e);
    QuietKeepsBare(cfg, s, Apply(cfg, s, e));
  }

  lemma CallEndKeepsBare(cfg: Config, s: State, run: RunId, outcome: Outcome)
    requires Inv(cfg, s) && Enabled(s, CallEnd(run, outcome)) && BareOk(cfg, s)
    requires Echoes(s, CallEnd(run, outcome)) && Resumes(CallEnd(run, outcome))
    ensures BareOk(cfg, EndCall(cfg, s, run, outcome))
  {
    var phase := CallEndIs(cfg, s, run, outcome);
    MoveKeepsBare(cfg, s, EndCall(cfg, s, run, outcome), run, phase);
  }

  lemma UnwindKeepsBare(cfg: Config, s: State, run: RunId)
    requires run in s.tasks && BareOk(cfg, s)
    ensures BareOk(cfg, UnwindTask(s, run))
  {
    forall other ensures BareCalls(cfg, UnwindTask(s, run), other) {
      assert BareCalls(cfg, s, other);
    }
  }

  lemma StepKeepsBare(cfg: Config, s: State, e: Event)
    requires Inv(cfg, s) && Enabled(s, e) && BareOk(cfg, s) && Echoes(s, e) && Resumes(e)
    requires NoFresh(Apply(cfg, s, e))
    ensures BareOk(cfg, Apply(cfg, s, e))
  {
    if !IsTaskEvent(e) {
      OtherKeepsBare(cfg, s, e);
    } else if e.CallEnd? {
      CallEndKeepsBare(cfg, s, e.run, e.outcome);
    } else if e.TaskBegin? {
      BeginKeepsBare(cfg, s, e.run);
    } else {
      UnwindKeepsBare(cfg, s, e.run);
    }
  }

  lemma InitialBare(cfg: Config)
    ensures BareOk(cfg, INITIAL)
  {
  }

  lemma NoFreshBefore(s: State, t: State)
    requires Grows(s.past, t.past) && NoFresh(t)
    ensures NoFresh(s)
  {
  }

  /**
   Main result: with no fresh requests and no resume failures, every call of
   every openai run of a slot is given the same session id, the slot's bare key.
   */
  lemma {:induction false} OneSessionPerSlot(cfg: Config, states: seq<State>, events: seq<Event>, i: nat)
    requires IsRun(cfg, states, events) && i < |states|
    requires forall k | 0 <= k < |events| :: Echoes(states[k], events[k]) && Resumes(events[k])
    requires NoFresh(states[i])
    ensures BareOk(cfg, states[i])
  {
    if i == 0 {
      InitialBare(cfg);
    } else {
      RunGrows(cfg, states, events, i - 1, i);
      NoFreshBefore(states[i - 1], states[i]);
      RunInv(cfg, states, events, i - 1);
      OneSessionPerSlot(cfg, states, events, i - 1);
      assert Enabled(states[i - 1], events[i - 1]) && states[i - 1 + 1] == Apply(cfg, states[i - 1], events[i - 1]);
      assert Echoes(states[i - 1], events[i - 1]) && Resumes(events[i - 1]);
      StepKeepsBare(cfg, states[i - 1], events[i - 1]);
    }
  }
}
