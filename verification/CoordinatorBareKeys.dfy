/**
 Once a workspace key has been committed or invalidated, no run of the
 coordinator is given the bare key again, except as the committed id itself.
 */
module CoordinatorBareKeys {
  import opened Wrappers
  import opened Execution
  import opened WorkspaceLifecycle
  import opened CoordinatorSteps
  import opened CoordinatorInvariant
  import opened CoordinatorPreservation
  import opened CoordinatorHistory
  import opened CoordinatorSessions

  /** The key has been committed or invalidated. */
  predicate Settled(s: State, key: string) {
    GetState(s.store, key).everCommitted
  }

  /** A task of the key got its id when the key was settled, from the committed entry or the factory. */
  ghost predicate GivenLate(cfg: Config, task: ExecTask, draws: nat) {
    task.seen.everCommitted && IdFits(cfg, task, draws)
  }

  /** Every session-keeping task of the key is one of the earlier ones or was given its id late; retry ids are drawn. */
  ghost predicate LateOk(cfg: Config, s: State, key: string, before: set<RunId>) {
    && Settled(s, key)
    && (forall run | run in s.tasks && s.tasks[run].backend == OPENAI && s.tasks[run].key == key && run !in before ::
          GivenLate(cfg, s.tasks[run], s.store.draws))
    && (forall run | run in s.tasks && s.tasks[run].key == key && s.tasks[run].phase.SecondCall? ::
          exists n: nat :: s.tasks[run].phase.retryId == cfg.factory(key, n))
  }

  lemma QuietKeepsLate(cfg: Config, s: State, t: State, key: string, before: set<RunId>)
    requires Quiet(cfg, s, t) && LateOk(cfg, s, key, before)
    ensures LateOk(cfg, t, key, before)
  {
    assert GetState(t.store, key) == GetState(s.store, key);
    forall run | run in t.tasks && t.tasks[run].backend == OPENAI && t.tasks[run].key == key && run !in before
      ensures GivenLate(cfg, t.tasks[run], t.store.draws)
    {
      if run in s.tasks && SameTask(s.tasks[run], t.tasks[run]) {
        assert GivenLate(cfg, s.tasks[run], s.store.draws);
      }
    }
  }

  lemma MoveKeepsLate(cfg: Config, s: State, t: State, run: RunId, phase: Phase, key: string, before: set<RunId>)
    requires PhaseMove(s, t, run, phase) && StoreMove(cfg, s, t, run, phase) && LateOk(cfg, s, key, before)
    ensures LateOk(cfg, t, key, before)
  {
    assert s.store.draws <= t.store.draws;
    forall other | other in t.tasks && t.tasks[other].backend == OPENAI && t.tasks[other].key == key && other !in before
      ensures GivenLate(cfg, t.tasks[other], t.store.draws)
    {
      assert GivenLate(cfg, s.tasks[other], s.store.draws);
    }
  }

  lemma CallEndKeepsLate(cfg: Config, s: State, run: RunId, outcome: Outcome, key: string, before: set<RunId>)
    requires Inv(cfg, s) && Enabled(s, CallEnd(run, outcome)) && LateOk(cfg, s, key, before)
    ensures LateOk(cfg, EndCall(cfg, s, run, outcome), key, before)
  {
    var phase := CallEndIs(cfg, s, run, outcome);
    MoveKeepsLate(cfg, s, EndCall(cfg, s, run, outcome), run, phase, key, before);
  }

  lemma PhaseKeepsLate(cfg: Config, s: State, run: RunId, key: string, before: set<RunId>)
    requires run in s.tasks && LateOk(cfg, s, key, before)
    ensures LateOk(cfg, BeginTask(s, run), key, before) && LateOk(cfg, UnwindTask(s, run), key, before)
  {
  }

  lemma StepKeepsLate(cfg: Config, s: State, e: Event, key: string, before: set<RunId>)
    requires Inv(cfg, s) && Enabled(s, e) && LateOk(cfg, s, key, before)
    ensures LateOk(cfg, Apply(cfg, s, e), key, before)
  {
    if !IsTaskEvent(e) {
      OtherEventsAreQuiet(cfg, s, e);
      QuietKeepsLate(cfg, s, Apply(cfg, s, e), key, before);
    } else {
      match e
      case CallEnd(run, outcome) => CallEndKeepsLate(cfg, s, run, outcome, key, before);
      case TaskBegin(run) => PhaseKeepsLate(cfg, s, run, key, before);
      case TaskUnwind(run) => PhaseKeepsLate(cfg, s, run, key, before);
    }
  }

  // ---- retry ids are always drawn -------------------------------------

  ghost predicate RetriesDrawn(cfg: Config, s: State) {
    forall run | run in s.tasks && s.tasks[run].phase.SecondCall? ::
      exists n: nat :: s.tasks[run].phase.retryId == cfg.factory(s.tasks[run].key, n)
  }

  lemma MoveKeepsRetries(cfg: Config, s: State, t: State, run: RunId, phase: Phase)
    requires PhaseMove(s, t, run, phase) && StoreMove(cfg, s, t, run, phase) && RetriesDrawn(cfg, s)
    ensures RetriesDrawn(cfg, t)
  {
  }

  lemma CallEndKeepsRetries(cfg: Config, s: State, run: RunId, outcome: Outcome)
    requires Inv(cfg, s) && Enabled(s, CallEnd(run, outcome)) && RetriesDrawn(cfg, s)
    ensures RetriesDrawn(cfg, EndCall(cfg, s, run, outcome))
  {
    var phase := CallEndIs(cfg, s, run, outcome);
    MoveKeepsRetries(cfg, s, EndCall(cfg, s, run, outcome), run, phase);
  }

  lemma QuietKeepsRetries(cfg: Config, s: State, t: State)
    requires Quiet(cfg, s, t) && RetriesDrawn(cfg, s)
    ensures RetriesDrawn(cfg, t)
  {
  }

  lemma StepKeepsRetries(cfg: Config, s: State, e: Event)
    requires Inv(cfg, s) && Enabled(s, e) && RetriesDrawn(cfg, s)
    ensures RetriesDrawn(cfg, Apply(cfg, s, e))
  {
    if !IsTaskEvent(e) {
      OtherEventsAreQuiet(cfg, s, e);
      QuietKeepsRetries(cfg, s, Apply(cfg, s, e));
    } else if e.CallEnd? {
      CallEndKeepsRetries(cfg, s, e.run, e.outcome);
    }
  }

  lemma {:induction false} RunKeepsRetries(cfg: Config, states: seq<State>, events: seq<Event>, j: nat)
    requires IsRun(cfg, states, events) && j < |states|
    ensures RetriesDrawn(cfg, states[j])
  {
    if j > 0 {
      RunKeepsRetries(cfg, states, events, j - 1);
      RunInv(cfg, states, events, j - 1);
      assert Enabled(states[j - 1], events[j - 1]) && states[j - 1 + 1] == Apply(cfg, states[j - 1], events[j - 1]);
      StepKeepsRetries(cfg, states[j - 1], events[j - 1]);
    }
  }

  // ---- over whole runs ------------------------------------------------

  lemma RunStepKeepsLate(cfg: Config, states: seq<State>, events: seq<Event>, j: nat, key: string, before: set<RunId>)
    requires IsRun(cfg, states, events) && j < |events| && LateOk(cfg, states[j], key, before)
    ensures LateOk(cfg, states[j + 1], key, before)
  {
    RunInv(cfg, states, events, j);
    assert Enabled(states[j], events[j]) && states[j + 1] == Apply(cfg, states[j], events[j]);
    StepKeepsLate(cfg, states[j], events[j], key, before);
  }

  lemma {:induction false} RunKeepsLate(cfg: Config, states: seq<State>, events: seq<Event>, i: nat, j: nat,
                                        key: string)
    requires IsRun(cfg, states, events) && i <= j < |states| && Settled(states[i], key)
    ensures LateOk(cfg, states[j], key, states[i].tasks.Keys)
    decreases j
  {
    if i == j {
      RunKeepsRetries(cfg, states, events, i);
    } else {
      RunKeepsLate(cfg, states, events, i, j - 1, key);
      RunStepKeepsLate(cfg, states, events, j - 1, key, states[i].tasks.Keys);
    }
  }

  /** A commit or an invalidate settles its key. */
  lemma SettledBy(cfg: Config, s: State, run: RunId, outcome: Outcome)
    requires Inv(cfg, s) && Enabled(s, CallEnd(run, outcome)) && s.tasks[run].backend == OPENAI
    ensures var t := EndCall(cfg, s, run, outcome);
            && run in t.tasks
            && (t.tasks[run].phase.SecondCall? || (t.tasks[run].phase.Finished?
                                                   && t.tasks[run].phase.result.status == Completed) ==>
                  Settled(t, s.tasks[run].key))
  {
    var phase := CallEndIs(cfg, s, run, outcome);
  }

  /**
   Main result: once a key is settled, at any later point of any run a
   resolution of it gives the bare key only if that is the committed id: what a
   task that started since then was given, what a retry draws, and what a peek
   for a request would report.
   */
  lemma BareKeyStaysRetired(cfg: Config, states: seq<State>, events: seq<Event>, i: nat, j: nat, key: string)
    requires IsRun(cfg, states, events) && i <= j < |states| && Settled(states[i], key)
    requires forall n: nat :: cfg.factory(key, n) != key
    ensures Settled(states[j], key)
    ensures forall run | run in states[j].tasks && run !in states[i].tasks
                         && states[j].tasks[run].backend == OPENAI && states[j].tasks[run].key == key ::
              states[j].tasks[run].sessionId == key ==>
                && !states[j].tasks[run].request.freshSession
                && states[j].tasks[run].seen.sessionId == Some(key) && states[j].tasks[run].seen.backend == Some(OPENAI)
    ensures forall run | run in states[j].tasks && states[j].tasks[run].key == key
                         && states[j].tasks[run].phase.SecondCall? ::
              states[j].tasks[run].phase.retryId != key
    ensures forall request | KeyOf(request) == key && Peek(cfg, states[j], request, OPENAI).sessionId == key ::
              && !request.freshSession
              && GetState(states[j].store, key).sessionId == Some(key)
              && GetState(states[j].store, key).backend == Some(OPENAI)
  {
    RunKeepsLate(cfg, states, events, i, j, key);
    forall run | run in states[j].tasks && run !in states[i].tasks
                 && states[j].tasks[run].backend == OPENAI && states[j].tasks[run].key == key
                 && states[j].tasks[run].sessionId == key
      ensures !states[j].tasks[run].request.freshSession && states[j].tasks[run].seen.sessionId == Some(key)
              && states[j].tasks[run].seen.backend == Some(OPENAI)
    {
      assert GivenLate(cfg, states[j].tasks[run], states[j].store.draws);
    }
  }
}
