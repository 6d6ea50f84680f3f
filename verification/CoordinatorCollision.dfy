/**
 Exactly when session continuity holds: runs of different groups whose keys
 collide can change what the other resolved, and nothing else can.
 */
module CoordinatorCollision {
  import opened Wrappers
  import opened Execution
  import opened WorkspaceLifecycle
  import opened CoordinatorSteps
  import opened CoordinatorInvariant
  import opened CoordinatorHistory
  import opened CoordinatorSessions

  ghost predicate Reachable(cfg: Config, s: State) {
    exists states, events {:trigger IsRun(cfg, states, events)} ::
      IsRun(cfg, states, events) && states[|events|] == s
  }

  lemma ReachInitial(cfg: Config)
    ensures Reachable(cfg, INITIAL)
  {
    var states: seq<State>, events: seq<Event> := [INITIAL], [];
    assert IsRun(cfg, states, events) && states[|events|] == INITIAL;
  }

  lemma ReachNext(cfg: Config, s: State, e: Event) returns (t: State)
    requires Reachable(cfg, s) && Enabled(s, e)
    ensures t == Apply(cfg, s, e) && Reachable(cfg, t)
  {
    t := Apply(cfg, s, e);
    var states, events :| IsRun(cfg, states, events) && states[|events|] == s;
    ExtendRun(cfg, states, events, e);
  }

  lemma ExtendRun(cfg: Config, states: seq<State>, events: seq<Event>, e: Event)
    requires IsRun(cfg, states, events) && Enabled(states[|events|], e)
    ensures IsRun(cfg, states + [Apply(cfg, states[|events|], e)], events + [e])
  {
    var longer, more := states + [Apply(cfg, states[|events|], e)], events + [e];
    forall i | 0 <= i < |more| ensures Enabled(longer[i], more[i]) && longer[i + 1] == Apply(cfg, longer[i], more[i]) {
      if i < |events| {
        assert Enabled(states[i], events[i]) && states[i + 1] == Apply(cfg, states[i], events[i]);
      }
    }
  }

  /** A turn that finds one live entry starts it and suspends. */
  lemma TurnStarts(cfg: Config, s: State, group: string, entry: Entry)
    requires At(s.queues, group) == [entry] && entry.request.group == group
    requires entry.run in s.futures && s.futures[entry.run].Pending? && Selectable(cfg, entry.request)
    ensures Turn(cfg, s, group) ==
              StartEntry(cfg, LogPop(s, entry, group, Started), entry, cfg.policy(entry.request).backend)
  {
  }

  lemma StartedEntry(cfg: Config, s: State, group: string, entry: Entry, backend: string)
    requires At(s.queues, group) == [entry] && entry.request.group == group
    ensures var t := StartEntry(cfg, LogPop(s, entry, group, Started), entry, backend);
            && entry.run in t.tasks && t.tasks[entry.run].phase.Scheduled? && !t.tasks[entry.run].cancelRequested
            && t.tasks[entry.run].backend == backend && t.tasks[entry.run].key == KeyOf(entry.request)
            && t.tasks[entry.run].seen == GetState(s.store, KeyOf(entry.request))
            && t.futures == s.futures && t.past.known == s.past.known
            && (forall g | g != group :: At(t.queues, g) == At(s.queues, g))
            && (forall g | g != group && g in s.workers :: g in t.workers && t.workers[g] == s.workers[g])
            && (forall run | run != entry.run && run in s.tasks :: run in t.tasks && t.tasks[run] == s.tasks[run])
            && (forall key {:trigger GetState(t.store, key)} :: GetState(t.store, key) == GetState(s.store, key))
  {
  }

  /** Both runs are queued, each at the head of its own group's queue. */
  lemma BothQueued(cfg: Config, r1: RunId, q1: Request, r2: RunId, q2: Request) returns (s: State)
    requires r1 != r2 && q1.group != q2.group
    ensures Reachable(cfg, s) && s.store == INITIAL.store
    ensures At(s.queues, q1.group) == [Entry(r1, q1)] && At(s.queues, q2.group) == [Entry(r2, q2)]
    ensures s.workers == map[q1.group := Ready, q2.group := Ready]
    ensures s.futures == map[r1 := Pending, r2 := Pending]
    ensures s.past.known == map[r1 := Known(q1, 0), r2 := Known(q2, 0)]
  {
    ReachInitial(cfg);
    s := ReachNext(cfg, INITIAL, SubmitEvent(r1, q1));
    s := ReachNext(cfg, s, SubmitEvent(r2, q2));
  }

  /** Both tasks have resolved the same untouched key. */
  lemma BothStarted(cfg: Config, r1: RunId, q1: Request, r2: RunId, q2: Request) returns (s: State)
    requires r1 != r2 && Clash(cfg, q1, q2)
    ensures Reachable(cfg, s) && s.past.known == map[r1 := Known(q1, 0), r2 := Known(q2, 0)]
    ensures r1 in s.tasks && s.tasks[r1].phase.Scheduled? && !s.tasks[r1].cancelRequested
    ensures r2 in s.tasks && s.tasks[r2].phase.Scheduled? && s.tasks[r2].seen == UNTOUCHED
    ensures s.tasks[r1].backend == OPENAI && s.tasks[r1].key == KeyOf(q1) == s.tasks[r2].key
  {
    s := BothQueued(cfg, r1, q1, r2, q2);
    TurnStarts(cfg, s, q1.group, Entry(r1, q1));
    StartedEntry(cfg, s, q1.group, Entry(r1, q1), OPENAI);
    s := ReachNext(cfg, s, WorkerTurn(q1.group));
    TurnStarts(cfg, s, q2.group, Entry(r2, q2));
    StartedEntry(cfg, s, q2.group, Entry(r2, q2), cfg.policy(q2).backend);
    s := ReachNext(cfg, s, WorkerTurn(q2.group));
  }

  /** The first run completes and commits while the second has not begun: what the second resolved is gone. */
  lemma SharedKeyDisturbs(cfg: Config, r1: RunId, q1: Request, r2: RunId, q2: Request) returns (s: State)
    requires r1 != r2 && Clash(cfg, q1, q2)
    ensures Reachable(cfg, s) && s.past.known == map[r1 := Known(q1, 0), r2 := Known(q2, 0)]
    ensures r2 in s.tasks && s.tasks[r2].phase.Scheduled?
    ensures GetState(s.store, s.tasks[r2].key) != s.tasks[r2].seen && !SeenOk(cfg, s)
  {
    s := BothStarted(cfg, r1, q1, r2, q2);
    s := ReachNext(cfg, s, TaskBegin(r1));
    s := ReachNext(cfg, s, CallEnd(r1, Dict(Completed, None, None, None)));
    assert !SeenRow(cfg, s.store, s.tasks[r2]);
  }

  // ---- exactly when continuity holds ----------------------------------

  /** Callers submit only requests of a given kind. */
  ghost predicate OnlyKnows(s: State, allowed: Request -> bool) {
    forall run | run in s.past.known :: allowed(s.past.known[run].request)
  }

  /** In every state they can bring about, no run's store entry was changed by another. */
  ghost predicate Continuous(cfg: Config, allowed: Request -> bool) {
    forall s | Reachable(cfg, s) && OnlyKnows(s, allowed) :: SeenOk(cfg, s)
  }

  lemma NoClashIsContinuous(cfg: Config, allowed: Request -> bool)
    requires forall q1, q2 | allowed(q1) && allowed(q2) :: !Clash(cfg, q1, q2)
    ensures Continuous(cfg, allowed)
  {
    forall s | Reachable(cfg, s) && OnlyKnows(s, allowed) ensures SeenOk(cfg, s) {
      var states, events :| IsRun(cfg, states, events) && states[|events|] == s;
      SessionUndisturbed(cfg, states, events, |events|);
    }
  }

  /**
   Main result: whatever requests callers may submit, continuity holds in every
   reachable state if and only if no two of those requests clash: the same key,
   different groups, both executable and one of them keeping a session.
   */
  lemma ContinuityExactly(cfg: Config, allowed: Request -> bool, r1: RunId, r2: RunId)
    requires r1 != r2
    ensures Continuous(cfg, allowed) <==> forall q1, q2 | allowed(q1) && allowed(q2) :: !Clash(cfg, q1, q2)
  {
    if forall q1, q2 | allowed(q1) && allowed(q2) :: !Clash(cfg, q1, q2) {
      NoClashIsContinuous(cfg, allowed);
    } else {
      var q1, q2 :| allowed(q1) && allowed(q2) && Clash(cfg, q1, q2);
      var s := SharedKeyDisturbs(cfg, r1, q1, r2, q2);
      assert OnlyKnows(s, allowed);
    }
  }

  /** So the slot ids that the slot service accepts are safe in any combination. */
  lemma CleanSlotsAreContinuous(cfg: Config, allowed: Request -> bool)
    requires forall q | allowed(q) :: NoHash(q.slot)
    ensures Continuous(cfg, allowed)
  {
    forall q1, q2 | allowed(q1) && allowed(q2) ensures !Clash(cfg, q1, q2) {
      if KeyOf(q1) == KeyOf(q2) {
        KeysInjectiveWithoutHash(q1.group, q1.slot, q2.group, q2.slot);
      }
    }
    NoClashIsContinuous(cfg, allowed);
  }

  /** And a '#' in a slot id is enough for two requests to clash. */
  lemma HashCanClash(cfg: Config, q: Request)
    requires KeepsSession(cfg, q.(group := "g", slot := "a#slot:b"))
    requires Selectable(cfg, q.(group := "g#slot:a", slot := "b"))
    ensures Clash(cfg, q.(group := "g", slot := "a#slot:b"), q.(group := "g#slot:a", slot := "b"))
  {
    assert KeyOf(q.(group := "g", slot := "a#slot:b")) == "g#slot:a#slot:b";
    assert |"g"| != |"g#slot:a"|;
  }
}
