/** What holds over whole runs of the task scheduler, with and without overlapping passes. */
module TaskRuns {
  import opened Wrappers
  import opened Strings
  import opened TaskScheduling

  ghost predicate IsStep(cron: CronNext, s: Sched, e: Event, t: Sched) {
    RefsOk(s) && Enabled(s, e) && t == Apply(cron, s, e)
  }

  ghost predicate IsRun(cron: CronNext, states: seq<Sched>, events: seq<Event>) {
    && |states| == |events| + 1
    && states[0] == EMPTY
    && forall i {:trigger events[i]} | 0 <= i < |events| ::
         IsStep(cron, states[i], events[i], states[i + 1])
  }

  lemma {:induction false} RunInv(cron: CronNext, states: seq<Sched>, events: seq<Event>, i: nat)
    requires IsRun(cron, states, events) && i < |states|
    ensures Inv(states[i])
  {
    if i == 0 {
      InitialInv();
    } else {
      RunInv(cron, states, events, i - 1);
      assert Enabled(states[i - 1], events[i - 1]) && states[i - 1 + 1] == Apply(cron, states[i - 1], events[i - 1]);
      StepInv(cron, states[i - 1], events[i - 1]);
    }
  }

  // ---- any interleaving -----------------------------------------------

  /** Main result: no task id is ever in flight twice, and the running ids are exactly those in flight. */
  lemma NeverInFlightTwice(cron: CronNext, states: seq<Sched>, events: seq<Event>, i: nat, p: nat, q: nat, id: Text)
    requires IsRun(cron, states, events) && i < |states|
    ensures InFlight(states[i], p) == Some(id) == InFlight(states[i], q) ==> p == q
    ensures id in states[i].running <==> exists r :: InFlight(states[i], r) == Some(id)
  {
    RunInv(cron, states, events, i);
  }

  /** A task object is changed by nothing but the return of an execution of that object. */
  lemma OnlySuccessChanges(cron: CronNext, s: Sched, e: Event, r: nat)
    requires RefsOk(s) && Enabled(s, e) && r < |s.heap|
    ensures r < |Apply(cron, s, e).heap|
    ensures Apply(cron, s, e).heap[r] != s.heap[r] ==>
              e.TaskEnds? && e.outcome == Returned && s.passes[e.p].current.value.ref == r
  {
  }

  /** A failed or cancelled execution leaves every task as it was, and its id is free to be executed again. */
  lemma FailureChangesNothing(cron: CronNext, s: Sched, p: nat, outcome: Outcome, now: int)
    requires Inv(s) && Enabled(s, TaskEnds(p, outcome, now)) && outcome != Returned
    ensures var t := Apply(cron, s, TaskEnds(p, outcome, now));
            && t.heap == s.heap && t.tasks == s.tasks && t.marked == s.marked
            && InFlight(s, p).Some? && InFlight(s, p).value !in t.running
            && forall q :: InFlight(t, q) != InFlight(s, p)
  {
    assert PassRefsOk(s.passes[p], |s.heap|);
    EndExclusion(cron, s, p, outcome, now);
  }

  /** Every execution that began has ended or is in flight. */
  lemma BegunAreAccountedFor(cron: CronNext, states: seq<Sched>, events: seq<Event>, i: nat)
    requires IsRun(cron, states, events) && i < |states|
    ensures states[i].begun == states[i].ended + |states[i].running|
  {
    RunInv(cron, states, events, i);
  }

  /**
   Main result: over its whole life an interval task stays on the phase of its
   first planned time and never moves back.
   */
  lemma {:induction false} IntervalNeverDrifts(cron: CronNext, states: seq<Sched>, events: seq<Event>, i: nat, j: nat,
                                               r: nat)
    requires IsRun(cron, states, events) && i <= j < |states| && r < |states[i].heap|
    requires states[i].heap[r].kind.Interval? && states[i].heap[r].nextRun.Some?
    ensures r < |states[j].heap| && states[j].heap[r].kind == states[i].heap[r].kind
    ensures states[j].heap[r].nextRun.Some? && states[j].heap[r].nextRun.value >= states[i].heap[r].nextRun.value
    ensures states[i].heap[r].kind.seconds > 0
    ensures (states[j].heap[r].nextRun.value - states[i].heap[r].nextRun.value) % states[i].heap[r].kind.seconds == 0
    decreases j
  {
    RunInv(cron, states, events, i);
    if i < j {
      IntervalNeverDrifts(cron, states, events, i, j - 1, r);
      assert Enabled(states[j - 1], events[j - 1]) && states[j - 1 + 1] == Apply(cron, states[j - 1], events[j - 1]);
      var a, b, c := states[j].heap[r].nextRun, states[j - 1].heap[r].nextRun, states[i].heap[r].nextRun;
      StepForward(cron, states[j - 1], events[j - 1], r);
      LatticeTransitive(a.value, b.value, c.value, states[i].heap[r].kind.seconds);
    }
  }

  lemma StepForward(cron: CronNext, s: Sched, e: Event, r: nat)
    requires RefsOk(s) && Enabled(s, e) && r < |s.heap| && s.heap[r].kind.Interval? && s.heap[r].nextRun.Some?
    ensures var t := Apply(cron, s, e);
            && r < |t.heap| && t.heap[r].kind == s.heap[r].kind && t.heap[r].nextRun.Some?
            && t.heap[r].nextRun.value >= s.heap[r].nextRun.value && s.heap[r].kind.seconds > 0
            && (t.heap[r].nextRun.value - s.heap[r].nextRun.value) % s.heap[r].kind.seconds == 0
  {
    assert Valid(s.heap[r]);
    if e.TaskEnds? {
      assert PassRefsOk(s.passes[e.p], |s.heap|);
      CatchUpClosedForm(s.heap[r].nextRun.value, s.heap[r].kind.seconds, e.now);
    }
  }

  /** Main result: a success of an interval task moves it strictly forward if and only if its planned time has come. */
  lemma SuccessMovesExactly(cron: CronNext, states: seq<Sched>, events: seq<Event>, i: nat)
    requires IsRun(cron, states, events) && i < |events|
    requires events[i].TaskEnds? && events[i].outcome == Returned
    ensures RefsOk(states[i]) && Enabled(states[i], events[i])
    ensures PassRefsOk(states[i].passes[events[i].p], |states[i].heap|)
    ensures states[i].passes[events[i].p].current.value.ref < |states[i + 1].heap|
    ensures var r := states[i].passes[events[i].p].current.value.ref;
            var before, after := states[i].heap[r], states[i + 1].heap[r];
            before.kind.Interval? ==>
              && before.nextRun.Some? && after.nextRun.Some?
              && (before.nextRun.value < after.nextRun.value <==> before.nextRun.value <= events[i].now)
              && (before.nextRun.value > events[i].now ==> after == before)
              && (before.nextRun.value <= events[i].now ==>
                    after.nextRun.value - before.kind.seconds <= events[i].now < after.nextRun.value)
  {
    var s, e := states[i], events[i];
    RunInv(cron, states, events, i);
    assert IsStep(cron, s, e, states[i + 1]);
    assert PassRefsOk(s.passes[e.p], |s.heap|) && PassPlanned(s.passes[e.p], s.heap);
    var task := s.heap[s.passes[e.p].current.value.ref];
    if task.kind.Interval? {
      CatchUpClosedForm(task.nextRun.value, task.kind.seconds, e.now);
    }
  }

  /**
   Main result: what a success makes of its task, by kind: a once task is done,
   an interval task moves along its lattice past the present, and a cron task
   moves from its planned time to the expression's next one.
   */
  lemma SuccessAdvances(cron: CronNext, states: seq<Sched>, events: seq<Event>, i: nat)
    requires IsRun(cron, states, events) && i < |events|
    requires events[i].TaskEnds? && events[i].outcome == Returned
    ensures RefsOk(states[i]) && Enabled(states[i], events[i])
    ensures PassRefsOk(states[i].passes[events[i].p], |states[i].heap|)
    ensures states[i].passes[events[i].p].current.value.ref < |states[i + 1].heap|
    ensures var r := states[i].passes[events[i].p].current.value.ref;
            var before, after := states[i].heap[r], states[i + 1].heap[r];
            match before.kind
            case Once => after == before.(status := Done, nextRun := None)
            case Interval(seconds) =>
              && seconds > 0 && before.nextRun.Some?
              && var t, now := before.nextRun.value, events[i].now;
                 after == before.(nextRun := Some(if t <= now then t + ((now - t) / seconds + 1) * seconds else t))
            case Cron(expression) =>
              && before.nextRun.Some?
              && after == before.(nextRun := Some(cron(expression, before.nextRun.value)))
  {
    var s, e := states[i], events[i];
    RunInv(cron, states, events, i);
    assert IsStep(cron, s, e, states[i + 1]);
    assert PassRefsOk(s.passes[e.p], |s.heap|) && PassPlanned(s.passes[e.p], s.heap);
    var task := s.heap[s.passes[e.p].current.value.ref];
    if task.kind.Interval? {
      CatchUpClosedForm(task.nextRun.value, task.kind.seconds, e.now);
    }
  }

  /** The n-th time after t that a cron expression gives. */
  function Nth(cron: CronNext, expression: string, t: int, n: nat): int {
    if n == 0 then t else cron(expression, Nth(cron, expression, t, n - 1))
  }

  /** The successes of a task between two states of a run. */
  function Successes(before: Sched, after: Sched, r: nat): int {
    (multiset(after.marked)[r] as int) - (multiset(before.marked)[r] as int)
  }

  /** A success of a cron task, and nothing else, moves it on by one time. */
  lemma CronStep(cron: CronNext, states: seq<Sched>, events: seq<Event>, j: nat, r: nat)
    requires IsRun(cron, states, events) && j < |events| && r < |states[j].heap|
    requires states[j].heap[r].kind.Cron? && states[j].heap[r].nextRun.Some?
    ensures r < |states[j + 1].heap|
    ensures var before, after := states[j].heap[r], states[j + 1].heap[r];
            var more := Successes(states[j], states[j + 1], r);
            && (more == 0 || more == 1)
            && after == if more == 0 then before
                        else before.(nextRun := Some(cron(before.kind.expression, before.nextRun.value)))
  {
    var s, e := states[j], events[j];
    RunInv(cron, states, events, j);
    assert IsStep(cron, s, e, states[j + 1]);
    MarkedOne(cron, s, e, r);
    OnlySuccessChanges(cron, s, e, r);
    if e.TaskEnds? && e.outcome == Returned {
      SuccessAdvances(cron, states, events, j);
    }
  }

  /**
   Main result: over any run a cron task's planned time is the one its
   expression gives as many times on as the task has succeeded.
   */
  lemma {:induction false} CronFollowsSuccesses(cron: CronNext, states: seq<Sched>, events: seq<Event>, i: nat, j: nat,
                                                r: nat)
    requires IsRun(cron, states, events) && i <= j < |states| && r < |states[i].heap|
    requires states[i].heap[r].kind.Cron? && states[i].heap[r].nextRun.Some?
    ensures r < |states[j].heap| && Successes(states[i], states[j], r) >= 0
    ensures var before := states[i].heap[r];
            states[j].heap[r] == before.(nextRun := Some(
              Nth(cron, before.kind.expression, before.nextRun.value, Successes(states[i], states[j], r))))
    decreases j
  {
    if i < j {
      CronFollowsSuccesses(cron, states, events, i, j - 1, r);
      CronStep(cron, states, events, j - 1, r);
    }
  }

  /** With an expression that always gives a later time, each success moves the task strictly forward. */
  lemma {:induction false} NthAdvances(cron: CronNext, expression: string, t: int, n: nat, m: nat)
    requires n < m && forall u :: cron(expression, u) > u
    ensures Nth(cron, expression, t, n) < Nth(cron, expression, t, m)
  {
    if n + 1 < m {
      NthAdvances(cron, expression, t, n, m - 1);
    }
  }

  /** So a success that a cron task has had between two states of a run has moved it. */
  lemma CronMovesForward(cron: CronNext, states: seq<Sched>, events: seq<Event>, i: nat, j: nat, r: nat)
    requires IsRun(cron, states, events) && i <= j < |states| && r < |states[i].heap|
    requires states[i].heap[r].kind.Cron? && states[i].heap[r].nextRun.Some?
    requires forall u :: cron(states[i].heap[r].kind.expression, u) > u
    ensures r < |states[j].heap| && states[j].heap[r].nextRun.Some?
    ensures states[i].heap[r].nextRun.value <= states[j].heap[r].nextRun.value
    ensures states[i].heap[r].nextRun.value < states[j].heap[r].nextRun.value
            <==> Successes(states[i], states[j], r) > 0
  {
    CronFollowsSuccesses(cron, states, events, i, j, r);
    var n := Successes(states[i], states[j], r);
    if n > 0 {
      NthAdvances(cron, states[i].heap[r].kind.expression, states[i].heap[r].nextRun.value, 0, n);
    }
  }

  // ---- when a once task repeats ---------------------------------------

  /** A once task that has succeeded is done, and one that a pass holds and that has not is still active. */
  predicate OnceFits(heap: seq<Task>, marked: seq<nat>, r: nat) {
    r < |heap| && heap[r].kind.Once? ==> (r in marked ==> heap[r].status == Done)
  }

  predicate HeldFits(heap: seq<Task>, marked: seq<nat>, r: nat) {
    r < |heap| && heap[r].kind.Once? ==> (r !in marked ==> heap[r].status == Active)
  }

  predicate PassHeldFits(pass: Pass, heap: seq<Task>, marked: seq<nat>) {
    && (forall i :: 0 <= i < |pass.due| ==> HeldFits(heap, marked, pass.due[i]))
    && (pass.current.Some? ==> HeldFits(heap, marked, pass.current.value.ref))
  }

  ghost predicate OnceOk(s: Sched) {
    && (forall r: nat {:trigger OnceFits(s.heap, s.marked, r)} :: OnceFits(s.heap, s.marked, r))
    && (forall p | p in s.passes :: PassHeldFits(s.passes[p], s.heap, s.marked))
  }

  /** What a success does to the two facts about any task object. */
  lemma MarkFits(cron: CronNext, heap: seq<Task>, marked: seq<nat>, ref: nat, now: int, r: nat)
    requires ref < |heap| && (Valid(heap[ref]) || heap[ref].kind.Once?)
    ensures var later := heap[ref := MarkAfterSuccess(cron, heap[ref], now)];
            && (OnceFits(heap, marked, r) ==> OnceFits(later, marked + [ref], r))
            && (HeldFits(heap, marked, r) ==> HeldFits(later, marked + [ref], r))
  {
  }

  lemma EndOnce(cron: CronNext, s: Sched, p: nat, outcome: Outcome, now: int)
    requires RefsOk(s) && OnceOk(s) && Enabled(s, TaskEnds(p, outcome, now)) && PassRefsOk(s.passes[p], |s.heap|)
    ensures OnceOk(EndTask(cron, s, p, outcome, now))
  {
    var t, ref := EndTask(cron, s, p, outcome, now), s.passes[p].current.value.ref;
    forall r: nat ensures OnceFits(t.heap, t.marked, r) {
      assert OnceFits(s.heap, s.marked, r);
      MarkFits(cron, s.heap, s.marked, ref, now, r);
    }
    forall q | q in t.passes ensures PassHeldFits(t.passes[q], t.heap, t.marked) {
      assert PassHeldFits(s.passes[q], s.heap, s.marked);
      forall r: nat ensures HeldFits(s.heap, s.marked, r) ==> HeldFits(t.heap, t.marked, r) {
        MarkFits(cron, s.heap, s.marked, ref, now, r);
      }
    }
  }

  lemma UpsertOnce(cron: CronNext, s: Sched, task: Task, now: int)
    requires RefsOk(s) && CountsOk(s) && OnceOk(s)
    ensures OnceOk(Upsert(cron, s, task, now))
  {
    var t := Upsert(cron, s, task, now);
    forall r: nat ensures OnceFits(t.heap, t.marked, r) {
      assert OnceFits(s.heap, s.marked, r);
    }
    forall p | p in t.passes ensures PassHeldFits(t.passes[p], t.heap, t.marked) {
      assert PassHeldFits(s.passes[p], s.heap, s.marked) && PassRefsOk(s.passes[p], |s.heap|);
    }
  }

  lemma NextOnce(s: Sched, p: nat, runAt: int)
    requires RefsOk(s) && OnceOk(s) && Enabled(s, PassNext(p, runAt)) && s.passes[p].due[0] < |s.heap|
    ensures OnceOk(NextTask(s, p, runAt))
  {
    assert PassHeldFits(s.passes[p], s.heap, s.marked);
  }

  lemma StartOnce(s: Sched, p: nat, now: int, due: seq<nat>)
    requires OnceOk(s) && Enabled(s, PassStarts(p, now, due))
    ensures OnceOk(StartPass(s, p, now, due))
  {
  }

  lemma StepOnce(cron: CronNext, s: Sched, e: Event)
    requires RefsOk(s) && CountsOk(s) && OnceOk(s) && Enabled(s, e)
    ensures OnceOk(Apply(cron, s, e))
  {
    match e
    case UpsertTask(task, now) => UpsertOnce(cron, s, task, now);
    case RemoveTask(_) =>
    case PassStarts(p, now, due) => StartOnce(s, p, now, due);
    case PassNext(p, runAt) =>
      assert PassRefsOk(s.passes[p], |s.heap|);
      NextOnce(s, p, runAt);
    case TaskEnds(p, outcome, now) =>
      assert PassRefsOk(s.passes[p], |s.heap|);
      EndOnce(cron, s, p, outcome, now);
    case PassEnds(_) =>
  }

  lemma {:induction false} RunOnce(cron: CronNext, states: seq<Sched>, events: seq<Event>, i: nat)
    requires IsRun(cron, states, events) && i < |states|
    ensures OnceOk(states[i])
  {
    if i > 0 {
      RunOnce(cron, states, events, i - 1);
      RunInv(cron, states, events, i - 1);
      assert IsStep(cron, states[i - 1], events[i - 1], states[i - 1 + 1]);
      StepOnce(cron, states[i - 1], events[i - 1]);
    }
  }

  /**
   Main result: in every run, overlapping or not, a once task that is being
   executed has already succeeded if and only if it is no longer active: the
   check that `_execute_task` could make before it starts an execution.
   */
  lemma RepeatsExactly(cron: CronNext, states: seq<Sched>, events: seq<Event>, i: nat, p: nat)
    requires IsRun(cron, states, events) && i < |states|
    requires p in states[i].passes && states[i].passes[p].current.Some?
    ensures var r := states[i].passes[p].current.value.ref;
            && r < |states[i].heap|
            && (states[i].heap[r].kind.Once? ==> (r in states[i].marked <==> states[i].heap[r].status != Active))
  {
    RunInv(cron, states, events, i);
    RunOnce(cron, states, events, i);
    var s := states[i];
    assert PassRefsOk(s.passes[p], |s.heap|) && PassHeldFits(s.passes[p], s.heap, s.marked);
    assert OnceFits(s.heap, s.marked, s.passes[p].current.value.ref);
  }

  /** An execution of the task returns although the task was no longer active. */
  ghost predicate RepeatsAt(states: seq<Sched>, events: seq<Event>, k: nat, r: nat)
    requires k < |events| < |states|
  {
    && events[k].TaskEnds? && events[k].outcome == Returned
    && events[k].p in states[k].passes && states[k].passes[events[k].p].current.Some?
    && states[k].passes[events[k].p].current.value.ref == r
    && r < |states[k].heap| && states[k].heap[r].status != Active
  }

  lemma MarkedOne(cron: CronNext, s: Sched, e: Event, r: nat)
    requires RefsOk(s) && Enabled(s, e)
    ensures var t := Apply(cron, s, e);
            multiset(t.marked)[r] == multiset(s.marked)[r]
              + (if e.TaskEnds? && e.outcome == Returned && s.passes[e.p].current.value.ref == r then 1 else 0)
  {
  }

  /** How one step of a run changes the number of successes of a once task. */
  lemma SuccessesGrow(cron: CronNext, states: seq<Sched>, events: seq<Event>, k: nat, r: nat)
    requires IsRun(cron, states, events) && k < |events| && r < |states[k].heap| && states[k].heap[r].kind.Once?
    ensures r < |states[k + 1].heap| && states[k + 1].heap[r].kind.Once?
    ensures var before, after := multiset(states[k].marked)[r], multiset(states[k + 1].marked)[r];
            && before <= after <= before + 1
            && (RepeatsAt(states, events, k, r) <==> before > 0 && after == before + 1)
  {
    var s, e := states[k], events[k];
    RunInv(cron, states, events, k);
    assert IsStep(cron, s, e, states[k + 1]);
    StepRefs(cron, s, e);
    MarkedOne(cron, s, e, r);
    if e.TaskEnds? {
      RepeatsExactly(cron, states, events, k, e.p);
    }
  }

  lemma NewTaskUnmarked(cron: CronNext, states: seq<Sched>, events: seq<Event>, k: nat, r: nat)
    requires IsRun(cron, states, events) && k < |events| && r >= |states[k].heap|
    ensures multiset(states[k + 1].marked)[r] == 0
  {
    RunInv(cron, states, events, k);
    assert IsStep(cron, states[k], events[k], states[k + 1]);
    assert r !in states[k].marked;
    if events[k].TaskEnds? {
      assert PassRefsOk(states[k].passes[events[k].p], |states[k].heap|);
    }
    MarkedOne(cron, states[k], events[k], r);
  }

  /**
   Main result: so a once task succeeds more than once if and only if some
   execution of it returned while it was no longer active.
   */
  lemma {:induction false} SucceedsAgainExactly(cron: CronNext, states: seq<Sched>, events: seq<Event>, j: nat, r: nat)
    requires IsRun(cron, states, events) && j < |states| && r < |states[j].heap| && states[j].heap[r].kind.Once?
    ensures multiset(states[j].marked)[r] > 1 <==> exists k :: 0 <= k < j && RepeatsAt(states, events, k, r)
    decreases j
  {
    if j > 0 {
      RunStepKeepsHeap(cron, states, events, j - 1);
      if r < |states[j - 1].heap| {
        SucceedsAgainExactly(cron, states, events, j - 1, r);
        SuccessesGrow(cron, states, events, j - 1, r);
      } else {
        NewTaskUnmarked(cron, states, events, j - 1, r);
        NeverRepeatedYet(cron, states, events, j, r);
      }
    }
  }

  lemma RunStepKeepsHeap(cron: CronNext, states: seq<Sched>, events: seq<Event>, j: nat)
    requires IsRun(cron, states, events) && j < |events|
    ensures HeapKept(states[j], states[j + 1])
  {
    assert IsStep(cron, states[j], events[j], states[j + 1]);
    StepRefs(cron, states[j], events[j]);
  }

  lemma NeverRepeatedYet(cron: CronNext, states: seq<Sched>, events: seq<Event>, j: nat, r: nat)
    requires IsRun(cron, states, events) && 0 < j < |states| && r >= |states[j - 1].heap|
    ensures forall k :: 0 <= k < j ==> !RepeatsAt(states, events, k, r)
  {
    NotYetThere(cron, states, events, j - 1, r);
  }

  lemma {:induction false} NotYetThere(cron: CronNext, states: seq<Sched>, events: seq<Event>, j: nat, r: nat)
    requires IsRun(cron, states, events) && j < |states| && r >= |states[j].heap|
    ensures forall k :: 0 <= k <= j ==> r >= |states[k].heap|
  {
    if j > 0 {
      assert IsStep(cron, states[j - 1], events[j - 1], states[j - 1 + 1]);
      StepRefs(cron, states[j - 1], events[j - 1]);
      NotYetThere(cron, states, events, j - 1, r);
    }
  }

  // ---- passes that do not overlap -------------------------------------

  ghost predicate OneAtATime(s: Sched, e: Event) {
    e.PassStarts? ==> s.passes == map[]
  }

  /** A task the pass still holds on to is as it was when the pass looked. */
  predicate StillDue(heap: seq<Task>, now: int, r: nat) {
    r < |heap| && IsDue(heap[r], now)
  }

  predicate PassFresh(pass: Pass, heap: seq<Task>) {
    && (forall i :: 0 <= i < |pass.due| ==> StillDue(heap, pass.now, pass.due[i]))
    && (forall i, j :: 0 <= i < j < |pass.due| ==> pass.due[i] != pass.due[j])
    && (pass.current.Some? ==>
          StillDue(heap, pass.now, pass.current.value.ref) && pass.current.value.ref !in pass.due)
  }

  ghost predicate SequentialOk(s: Sched) {
    && (forall p, q | p in s.passes && q in s.passes :: p == q)
    && (forall p | p in s.passes :: PassFresh(s.passes[p], s.heap))
  }

  lemma EndSequential(cron: CronNext, s: Sched, p: nat, outcome: Outcome, now: int)
    requires RefsOk(s) && SequentialOk(s) && Enabled(s, TaskEnds(p, outcome, now)) && PassRefsOk(s.passes[p], |s.heap|)
    ensures SequentialOk(EndTask(cron, s, p, outcome, now))
  {
    var t := EndTask(cron, s, p, outcome, now);
    assert PassFresh(s.passes[p], s.heap);
    forall q | q in t.passes ensures PassFresh(t.passes[q], t.heap) {
      assert q == p;
    }
  }

  lemma UpsertSequential(cron: CronNext, s: Sched, task: Task, now: int)
    requires RefsOk(s) && SequentialOk(s)
    ensures SequentialOk(Upsert(cron, s, task, now))
  {
  }

  lemma NextSequential(s: Sched, p: nat, runAt: int)
    requires RefsOk(s) && SequentialOk(s) && Enabled(s, PassNext(p, runAt)) && s.passes[p].due[0] < |s.heap|
    ensures SequentialOk(NextTask(s, p, runAt))
  {
  }

  lemma StartSequential(s: Sched, p: nat, now: int, due: seq<nat>)
    requires SequentialOk(s) && s.passes == map[] && DueList(s, now, due)
    ensures SequentialOk(StartPass(s, p, now, due))
  {
  }

  lemma OtherSequential(cron: CronNext, s: Sched, e: Event)
    requires Inv(s) && SequentialOk(s) && Enabled(s, e) && OneAtATime(s, e) && !e.TaskEnds?
    ensures SequentialOk(Apply(cron, s, e))
  {
    match e
    case UpsertTask(task, now) => UpsertSequential(cron, s, task, now);
    case RemoveTask(_) =>
    case PassStarts(p, now, due) => StartSequential(s, p, now, due);
    case PassNext(p, runAt) =>
      assert PassRefsOk(s.passes[p], |s.heap|);
      NextSequential(s, p, runAt);
    case PassEnds(_) =>
  }

  lemma {:induction false} RunSequential(cron: CronNext, states: seq<Sched>, events: seq<Event>, i: nat)
    requires IsRun(cron, states, events) && i < |states|
    requires forall k {:trigger events[k]} | 0 <= k < i :: OneAtATime(states[k], events[k])
    ensures SequentialOk(states[i])
  {
    if i > 0 {
      var s, e := states[i - 1], events[i - 1];
      RunSequential(cron, states, events, i - 1);
      RunInv(cron, states, events, i - 1);
      assert Enabled(s, e) && states[i - 1 + 1] == Apply(cron, s, e) && OneAtATime(s, e);
      if e.TaskEnds? {
        assert PassRefsOk(s.passes[e.p], |s.heap|);
        EndSequential(cron, s, e.p, e.outcome, e.now);
      } else {
        OtherSequential(cron, s, e);
      }
    }
  }

  /** Main result: when calls of `run_pending` do not overlap, a once task succeeds at most once. */
  lemma OnceSucceedsAtMostOnce(cron: CronNext, states: seq<Sched>, events: seq<Event>, i: nat, r: nat)
    requires IsRun(cron, states, events) && i < |states| && r < |states[i].heap| && states[i].heap[r].kind.Once?
    requires forall k {:trigger events[k]} | 0 <= k < i :: OneAtATime(states[k], events[k])
    ensures multiset(states[i].marked)[r] <= 1
    ensures multiset(states[i].marked)[r] == 1 ==> states[i].heap[r].status == Done
  {
    RunOnce(cron, states, events, i);
    assert OnceFits(states[i].heap, states[i].marked, r);
    SucceedsAgainExactly(cron, states, events, i, r);
    forall k | 0 <= k < i ensures !RepeatsAt(states, events, k, r) {
      RunSequential(cron, states, events, k);
      if events[k].TaskEnds? && events[k].p in states[k].passes {
        assert PassFresh(states[k].passes[events[k].p], states[k].heap);
      }
    }
  }

  /**
   Main result: then also, with a clock that never runs backwards, every success
   moves an interval task to its next free slot.
   */
  lemma SuccessMovesForward(cron: CronNext, states: seq<Sched>, events: seq<Event>, i: nat)
    requires IsRun(cron, states, events) && i < |events|
    requires forall k {:trigger events[k]} | 0 <= k < i :: OneAtATime(states[k], events[k])
    requires events[i].TaskEnds? && events[i].outcome == Returned
    requires events[i].p in states[i].passes && events[i].now >= states[i].passes[events[i].p].now
    ensures states[i].passes[events[i].p].current.Some?
    ensures var r := states[i].passes[events[i].p].current.value.ref;
            && r < |states[i].heap| && r < |states[i + 1].heap|
            && var before, after := states[i].heap[r], states[i + 1].heap[r];
               before.kind.Interval? ==>
                 && before.nextRun.Some? && after.nextRun.Some?
                 && before.nextRun.value < after.nextRun.value
                 && after.nextRun.value - before.kind.seconds <= events[i].now < after.nextRun.value
  {
    SuccessMovesExactly(cron, states, events, i);
    RunSequential(cron, states, events, i);
    assert PassFresh(states[i].passes[events[i].p], states[i].heap);
  }

  // ---- passes that overlap --------------------------------------------

  const A: Text := [0x61]
  const B: Text := [0x62]

  ghost predicate Reachable(cron: CronNext, s: Sched) {
    exists states, events {:trigger IsRun(cron, states, events)} ::
      IsRun(cron, states, events) && states[|events|] == s
  }

  lemma ReachNext(cron: CronNext, s: Sched, e: Event)
    requires Reachable(cron, s) && Enabled(s, e)
    ensures RefsOk(s) && Reachable(cron, Apply(cron, s, e))
  {
    var states, events :| IsRun(cron, states, events) && states[|events|] == s;
    Extend(cron, states, events, e);
  }

  lemma Extend(cron: CronNext, states: seq<Sched>, events: seq<Event>, e: Event)
    requires IsRun(cron, states, events) && Enabled(states[|events|], e)
    ensures RefsOk(states[|events|])
    ensures IsRun(cron, states + [Apply(cron, states[|events|], e)], events + [e])
  {
    RunInv(cron, states, events, |events|);
    ExtendBy(cron, states, events, e, Apply(cron, states[|events|], e));
  }

  lemma ExtendBy(cron: CronNext, states: seq<Sched>, events: seq<Event>, e: Event, t: Sched)
    requires IsRun(cron, states, events) && IsStep(cron, states[|events|], e, t)
    ensures IsRun(cron, states + [t], events + [e])
  {
    var longer, more := states + [t], events + [e];
    forall i | 0 <= i < |more| ensures IsStep(cron, longer[i], more[i], longer[i + 1]) {
      if i < |events| {
        assert IsStep(cron, states[i], events[i], states[i + 1]);
      }
    }
  }

  lemma ReachEmpty(cron: CronNext)
    ensures Reachable(cron, EMPTY)
  {
    var states: seq<Sched>, events: seq<Event> := [EMPTY], [];
    assert IsRun(cron, states, events) && states[|events|] == EMPTY;
  }

  function FirstTask(): Task {
    Task(A, Once, Active, Some(0))
  }

  function SecondTask(kind: Kind): Task {
    Task(B, kind, Active, Some(0))
  }

  lemma TwoTasks(cron: CronNext, kind: Kind) returns (s: Sched)
    requires Valid(SecondTask(kind))
    ensures Reachable(cron, s) && s.heap == [FirstTask(), SecondTask(kind)]
    ensures s.tasks == map[A := 0, B := 1] && s.running == {} && s.passes == map[] && s.marked == []
  {
    ReachEmpty(cron);
    s := Next(cron, EMPTY, UpsertTask(FirstTask(), 0));
    s := Next(cron, s, UpsertTask(SecondTask(kind), 0));
  }

  lemma FirstBegins(cron: CronNext, kind: Kind) returns (s: Sched)
    requires Valid(SecondTask(kind))
    ensures Reachable(cron, s) && s.heap == [FirstTask(), SecondTask(kind)]
    ensures s.tasks == map[A := 0, B := 1] && s.running == {A} && s.marked == []
    ensures s.passes == map[0 := Pass(0, [1], Some(Execution(0, 0)))]
  {
    var both: seq<nat> := [0, 1];
    assert both[1..] == [1];
    s := TwoTasks(cron, kind);
    DueAmongTwo(s, kind);
    s := Next(cron, s, PassStarts(0, 0, both));
    s := Next(cron, s, PassNext(0, 0));
  }

  /** Both tasks are in flight, one in each pass, and the first pass still has the second task to do. */
  lemma OverlapBegins(cron: CronNext, kind: Kind) returns (s: Sched)
    requires Valid(SecondTask(kind))
    ensures Reachable(cron, s) && s.heap == [FirstTask(), SecondTask(kind)]
    ensures s.passes == map[0 := Pass(0, [1], Some(Execution(0, 0))), 1 := Pass(0, [], Some(Execution(1, 0)))]
    ensures s.running == {A, B} && s.marked == []
  {
    var second: seq<nat> := [1];
    assert second[1..] == [];
    s := FirstBegins(cron, kind);
    DueAmongTwo(s, kind);
    s := Next(cron, s, PassStarts(1, 0, second));
    s := Next(cron, s, PassNext(1, 0));
  }

  lemma DueAmongTwo(s: Sched, kind: Kind)
    requires s.heap == [FirstTask(), SecondTask(kind)] && s.tasks == map[A := 0, B := 1]
    ensures s.running == {} ==> DueList(s, 0, [0, 1])
    ensures s.running == {A} ==> DueList(s, 0, [1])
  {
  }

  lemma Next(cron: CronNext, s: Sched, e: Event) returns (t: Sched)
    requires Reachable(cron, s) && Enabled(s, e)
    ensures RefsOk(s) && t == Apply(cron, s, e) && Reachable(cron, t)
  {
    ReachNext(cron, s, e);
    t := Apply(cron, s, e);
  }

  /** Both tasks have succeeded, and the first pass still has the second one to do. */
  lemma BothDone(cron: CronNext, kind: Kind) returns (s: Sched)
    requires Valid(SecondTask(kind))
    ensures Reachable(cron, s)
    ensures s.heap == [Task(A, Once, Done, None), MarkAfterSuccess(cron, SecondTask(kind), 0)]
    ensures 0 in s.passes && s.passes[0] == Pass(0, [1], None) && s.running == {} && s.marked == [1, 0]
  {
    s := OverlapBegins(cron, kind);
    s := Next(cron, s, TaskEnds(1, Returned, 0));
    s := Next(cron, s, TaskEnds(0, Returned, 0));
  }

  /** The first pass still holds the second task, and takes it up again. */
  lemma TakenUpAgain(cron: CronNext, kind: Kind) returns (s: Sched)
    requires Valid(SecondTask(kind))
    ensures Reachable(cron, s) && s.marked == [1, 0]
    ensures s.heap == [Task(A, Once, Done, None), MarkAfterSuccess(cron, SecondTask(kind), 0)]
    ensures 0 in s.passes && s.passes[0] == Pass(0, [], Some(Execution(1, 0)))
  {
    var due: seq<nat> := [1];
    assert due[1..] == [];
    s := BothDone(cron, kind);
    s := Next(cron, s, PassNext(0, 0));
  }

  /** Two overlapping passes run a once task twice: the first still holds it when the second has completed it. */
  lemma OverlapRunsOnceTwice(cron: CronNext) returns (s: Sched)
    ensures Reachable(cron, s)
    ensures s.heap == [Task(A, Once, Done, None), Task(B, Once, Done, None)]
    ensures s.marked == [1, 0, 1]
  {
    s := TakenUpAgain(cron, Once);
    s := Next(cron, s, TaskEnds(0, Returned, 0));
  }

  /** Two overlapping passes run an interval task twice, and its second success does not advance it. */
  lemma OverlapStandsStill(cron: CronNext, seconds: int) returns (before: Sched, after: Sched)
    requires seconds > 0
    ensures Reachable(cron, before) && Reachable(cron, after)
    ensures Enabled(before, TaskEnds(0, Returned, 0)) && RefsOk(before)
    ensures after == Apply(cron, before, TaskEnds(0, Returned, 0))
    ensures before.marked == [1, 0] && after.marked == [1, 0, 1]
    ensures |before.heap| == |after.heap| == 2
    ensures before.heap[1] == after.heap[1] == Task(B, Interval(seconds), Active, Some(seconds))
  {
    before := TakenUpAgain(cron, Interval(seconds));
    assert CatchUp(0, seconds, 0) == CatchUp(seconds, seconds, 0) == seconds;
    after := Next(cron, before, TaskEnds(0, Returned, 0));
  }
}
