/**
 The task scheduler of services/scheduler.py together with the log wrapper of
 services/task_service.py, as a state machine. Times are integers on the
 clock's scale. Task objects are numbered in the order they were scheduled; a
 pass of `run_pending` holds on to objects, not to ids.
 */
module TaskScheduling {
  import opened Wrappers
  import opened Strings

  // ---- tasks ----------------------------------------------------------

  datatype Kind = Once | Interval(seconds: int) | Cron(expression: string)

  datatype TaskStatus = Active | Done | Inactive

  datatype Task = Task(id: Text, kind: Kind, status: TaskStatus, nextRun: Option<int>)

  /** `croniter(expression, anchor).get_next`. */
  type CronNext = (string, int) -> int

  predicate Valid(task: Task) {
    && (task.kind.Interval? ==> task.kind.seconds > 0)
    && (task.kind.Once? ==> task.nextRun.Some?)
  }

  function InitializeNextRun(cron: CronNext, task: Task, now: int): Task {
    if task.status != Active || task.nextRun.Some? then task
    else match task.kind
      case Interval(seconds) => task.(nextRun := Some(now + seconds))
      case Cron(expression) => task.(nextRun := Some(cron(expression, now)))
      case Once => task
  }

  predicate IsDue(task: Task, now: int) {
    task.status == Active && task.nextRun.Some? && task.nextRun.value <= now
  }

  /** The catch-up loop: whole intervals are added until the time lies in the future. */
  function CatchUp(anchor: int, interval: int, now: int): int
    requires interval > 0
    decreases now - anchor
  {
    if anchor <= now then CatchUp(anchor + interval, interval, now) else anchor
  }

  function ComputeNextRun(cron: CronNext, task: Task, now: int): Option<int>
    requires task.kind.Interval? ==> task.kind.seconds > 0
  {
    var anchor := if task.nextRun.Some? then task.nextRun.value else now;
    match task.kind
    case Interval(seconds) => Some(CatchUp(anchor, seconds, now))
    case Cron(expression) => Some(cron(expression, anchor))
    case Once => None
  }

  function MarkAfterSuccess(cron: CronNext, task: Task, now: int): Task
    requires Valid(task) || task.kind.Once?
  {
    if task.kind.Once? then task.(status := Done, nextRun := None)
    else task.(nextRun := ComputeNextRun(cron, task, now))
  }

  /** Main result: the loop ends at the least time after now on the lattice of the anchor. */
  lemma {:induction false} CatchUpClosedForm(anchor: int, interval: int, now: int)
    requires interval > 0
    ensures CatchUp(anchor, interval, now) ==
              if anchor <= now then anchor + ((now - anchor) / interval + 1) * interval else anchor
    ensures CatchUp(anchor, interval, now) > now
    ensures anchor <= now ==> CatchUp(anchor, interval, now) - interval <= now
    ensures CatchUp(anchor, interval, now) >= anchor
    ensures (CatchUp(anchor, interval, now) - anchor) % interval == 0
    decreases now - anchor
  {
    if anchor <= now {
      CatchUpClosedForm(anchor + interval, interval, now);
      DivideStep(now - anchor, interval);
      var next := CatchUp(anchor, interval, now);
      AddMultiple(next - anchor - interval, interval);
    }
  }

  lemma DivideStep(a: int, d: int)
    requires d > 0 && a >= 0
    ensures a >= d ==> a / d == (a - d) / d + 1
    ensures a < d ==> a / d == 0
    ensures a / d * d <= a < a / d * d + d
  {
    var q := a / d;
    assert a == q * d + a % d;
    if a >= d {
      assert a - d == (q - 1) * d + a % d;
      QuotientUnique(a - d, d, q - 1, a % d);
    } else {
      QuotientUnique(a, d, 0, a);
    }
  }

  lemma QuotientUnique(a: int, d: int, q: int, r: int)
    requires d > 0 && a == q * d + r && 0 <= r < d
    ensures a / d == q && a % d == r
  {
    var p, s := a / d, a % d;
    assert 0 <= s < d && a == d * p + s;
    assert (p - q) * d == r - s && (q - p) * d == s - r;
    if p > q {
      AtLeastOnce(p - q, d);
    } else if q > p {
      AtLeastOnce(q - p, d);
    }
  }

  lemma AtLeastOnce(k: int, d: int)
    requires k >= 1 && d > 0
    ensures k * d >= d
  {
  }

  lemma AddMultiple(a: int, d: int)
    requires d > 0 && a % d == 0
    ensures (a + d) % d == 0
  {
    QuotientUnique(a + d, d, a / d + 1, 0);
  }

  lemma LatticeTransitive(a: int, b: int, c: int, d: int)
    requires d > 0 && (a - b) % d == 0 && (b - c) % d == 0
    ensures (a - c) % d == 0
  {
    var p, q := (a - b) / d, (b - c) / d;
    assert a - c == (p + q) * d;
    QuotientUnique(a - c, d, p + q, 0);
  }

  // ---- the scheduler's steps ------------------------------------------

  /** What the scheduler sees of an execution: it returns, raises an exception, or is cancelled from outside. */
  datatype Outcome = Returned | Raised | Cancelled

  datatype Execution = Execution(ref: nat, runAt: int)

  /** One call of `run_pending`: when it looked, the due tasks it has left, and the one it is executing. */
  datatype Pass = Pass(now: int, due: seq<nat>, current: Option<Execution>)

  /**
   `heap` holds the task objects and `tasks` the dictionary by id. `begun` and
   `ended` count executions, `marked` lists the tasks in the order in which
   successes advanced them, and `phases` the first planned time of each task
   object.
   */
  datatype Sched = Sched(
    tasks: map<Text, nat>, heap: seq<Task>, running: set<Text>, passes: map<nat, Pass>,
    begun: nat, ended: nat, marked: seq<nat>, phases: seq<Option<int>>)

  const EMPTY := Sched(map[], [], {}, map[], 0, 0, [], [])

  function Upsert(cron: CronNext, s: Sched, task: Task, now: int): Sched {
    if !Valid(task) then s else
      var planned := InitializeNextRun(cron, task, now);
      s.(tasks := s.tasks[task.id := |s.heap|], heap := s.heap + [planned], phases := s.phases + [planned.nextRun])
  }

  /** The due list: every due task of the dictionary that is not running, once, by time; ties may come in any order. */
  ghost predicate DueList(s: Sched, now: int, due: seq<nat>) {
    && (forall i :: 0 <= i < |due| ==> due[i] < |s.heap|)
    && (forall i :: 0 <= i < |due| ==>
          IsDue(s.heap[due[i]], now) && s.heap[due[i]].id in s.tasks && s.tasks[s.heap[due[i]].id] == due[i]
          && s.heap[due[i]].id !in s.running)
    && (forall i, j :: 0 <= i < j < |due| ==>
          due[i] != due[j] && s.heap[due[i]].nextRun.value <= s.heap[due[j]].nextRun.value)
    && (forall id | id in s.tasks && s.tasks[id] < |s.heap| && id !in s.running && IsDue(s.heap[s.tasks[id]], now) ::
          s.tasks[id] in due)
  }

  function StartPass(s: Sched, p: nat, now: int, due: seq<nat>): Sched {
    s.(passes := s.passes[p := Pass(now, due, None)])
  }

  /** The pass takes up its next task, unless another pass is just executing it. */
  function NextTask(s: Sched, p: nat, runAt: int): Sched
    requires p in s.passes && s.passes[p].due != [] && s.passes[p].due[0] < |s.heap|
  {
    var pass := s.passes[p];
    var id := s.heap[pass.due[0]].id;
    if id in s.running then s.(passes := s.passes[p := pass.(due := pass.due[1..])])
    else s.(running := s.running + {id}, begun := s.begun + 1,
            passes := s.passes[p := pass.(due := pass.due[1..], current := Some(Execution(pass.due[0], runAt)))])
  }

  /** Only a return advances the task, and a cancellation takes the whole pass with it. */
  function EndTask(cron: CronNext, s: Sched, p: nat, outcome: Outcome, now: int): Sched
    requires p in s.passes && s.passes[p].current.Some? && s.passes[p].current.value.ref < |s.heap|
    requires Valid(s.heap[s.passes[p].current.value.ref]) || s.heap[s.passes[p].current.value.ref].kind.Once?
  {
    var pass, run := s.passes[p], s.passes[p].current.value;
    var task := s.heap[run.ref];
    s.(heap := if outcome == Returned then s.heap[run.ref := MarkAfterSuccess(cron, task, now)] else s.heap,
       running := s.running - {task.id},
       passes := if outcome == Cancelled then s.passes - {p} else s.passes[p := pass.(current := None)],
       ended := s.ended + 1,
       marked := if outcome == Returned then s.marked + [run.ref] else s.marked)
  }

  datatype Event =
    | UpsertTask(task: Task, now: int)
    | RemoveTask(id: Text)
    | PassStarts(p: nat, now: int, due: seq<nat>)
    | PassNext(p: nat, runAt: int)
    | TaskEnds(p: nat, outcome: Outcome, now: int)
    | PassEnds(p: nat)

  /** The state refers only to task objects that exist and are well formed. */
  ghost predicate RefsOk(s: Sched) {
    && |s.phases| == |s.heap|
    && (forall r :: 0 <= r < |s.heap| ==> s.heap[r].kind.Once? || Valid(s.heap[r]))
    && (forall id | id in s.tasks :: s.tasks[id] < |s.heap| && s.heap[s.tasks[id]].id == id)
    && (forall p | p in s.passes :: PassRefsOk(s.passes[p], |s.heap|))
  }

  predicate PassRefsOk(pass: Pass, bound: nat) {
    && (forall i :: 0 <= i < |pass.due| ==> pass.due[i] < bound)
    && (pass.current.Some? ==> pass.current.value.ref < bound)
  }

  ghost predicate Enabled(s: Sched, e: Event) {
    match e
    case UpsertTask(_, _) => true
    case RemoveTask(_) => true
    case PassStarts(p, now, due) => p !in s.passes && DueList(s, now, due)
    case PassNext(p, _) => p in s.passes && s.passes[p].current.None? && s.passes[p].due != []
    case TaskEnds(p, _, _) => p in s.passes && s.passes[p].current.Some?
    case PassEnds(p) => p in s.passes && s.passes[p].current.None? && s.passes[p].due == []
  }

  ghost function Apply(cron: CronNext, s: Sched, e: Event): Sched
    requires RefsOk(s) && Enabled(s, e)
  {
    match e
    case UpsertTask(task, now) => Upsert(cron, s, task, now)
    case RemoveTask(id) => s.(tasks := s.tasks - {id})
    case PassStarts(p, now, due) => StartPass(s, p, now, due)
    case PassNext(p, runAt) => assert PassRefsOk(s.passes[p], |s.heap|); NextTask(s, p, runAt)
    case TaskEnds(p, outcome, now) => assert PassRefsOk(s.passes[p], |s.heap|); EndTask(cron, s, p, outcome, now)
    case PassEnds(p) => s.(passes := s.passes - {p})
  }

  // ---- what every interleaving keeps ----------------------------------

  /** The task id a pass is executing. */
  function InFlight(s: Sched, p: nat): Option<Text> {
    if p in s.passes && s.passes[p].current.Some? && s.passes[p].current.value.ref < |s.heap|
    then Some(s.heap[s.passes[p].current.value.ref].id) else None
  }

  /** The running ids are those in flight, and no two passes execute the same id. */
  ghost predicate ExclusionOk(s: Sched) {
    && (forall p {:trigger InFlight(s, p)} :: InFlight(s, p).Some? ==> InFlight(s, p).value in s.running)
    && (forall id | id in s.running :: exists p :: InFlight(s, p) == Some(id))
    && (forall p, q {:trigger InFlight(s, p), InFlight(s, q)} ::
          p != q && InFlight(s, p).Some? ==> InFlight(s, p) != InFlight(s, q))
  }

  /** Every execution that began has ended or is in flight, and only task objects that exist were advanced. */
  ghost predicate CountsOk(s: Sched) {
    && s.begun == s.ended + |s.running|
    && (forall i :: 0 <= i < |s.marked| ==> s.marked[i] < |s.heap|)
  }

  /** The planned time of an interval task lies on the lattice of its first one. */
  predicate OnPhase(task: Task, phase: Option<int>) {
    task.kind.Interval? && task.nextRun.Some? ==>
      task.kind.seconds > 0 && phase.Some? && (task.nextRun.value - phase.value) % task.kind.seconds == 0
  }

  /** A repeating task that a pass holds on to has been planned, and stays so. */
  predicate Planned(heap: seq<Task>, r: nat) {
    r < |heap| && (!heap[r].kind.Once? ==> heap[r].nextRun.Some?)
  }

  predicate PassPlanned(pass: Pass, heap: seq<Task>) {
    && (forall i :: 0 <= i < |pass.due| ==> Planned(heap, pass.due[i]))
    && (pass.current.Some? ==> Planned(heap, pass.current.value.ref))
  }

  ghost predicate PhasesOk(s: Sched) {
    && |s.phases| == |s.heap|
    && (forall r :: 0 <= r < |s.heap| ==> OnPhase(s.heap[r], s.phases[r]))
    && (forall p | p in s.passes :: PassPlanned(s.passes[p], s.heap))
  }

  ghost predicate Inv(s: Sched) {
    RefsOk(s) && ExclusionOk(s) && CountsOk(s) && PhasesOk(s)
  }

  /** Names and kinds of task objects never change, and objects are only added. */
  ghost predicate HeapKept(s: Sched, t: Sched) {
    && |s.heap| <= |t.heap|
    && forall r :: 0 <= r < |s.heap| ==> t.heap[r].id == s.heap[r].id && t.heap[r].kind == s.heap[r].kind
  }

  lemma StepRefs(cron: CronNext, s: Sched, e: Event)
    requires RefsOk(s) && Enabled(s, e)
    ensures RefsOk(Apply(cron, s, e)) && HeapKept(s, Apply(cron, s, e))
  {
    var t := Apply(cron, s, e);
    forall p | p in t.passes ensures PassRefsOk(t.passes[p], |t.heap|) {
      if p in s.passes {
        assert PassRefsOk(s.passes[p], |s.heap|);
      }
    }
  }

  lemma InitialInv()
    ensures Inv(EMPTY)
  {
    assert forall p :: InFlight(EMPTY, p).None?;
  }

  // Mutual exclusion.

  lemma SameFlight(s: Sched, t: Sched)
    requires ExclusionOk(s) && t.running == s.running
    requires forall p :: InFlight(t, p) == InFlight(s, p)
    ensures ExclusionOk(t)
  {
    forall id | id in t.running ensures exists p :: InFlight(t, p) == Some(id) {
      var p :| InFlight(s, p) == Some(id);
      assert InFlight(t, p) == Some(id);
    }
  }

  lemma NextExclusion(s: Sched, p: nat, runAt: int)
    requires RefsOk(s) && ExclusionOk(s) && Enabled(s, PassNext(p, runAt))
    requires s.passes[p].due[0] < |s.heap|
    ensures ExclusionOk(NextTask(s, p, runAt))
  {
    var t := NextTask(s, p, runAt);
    var id := s.heap[s.passes[p].due[0]].id;
    assert forall q | q != p :: InFlight(t, q) == InFlight(s, q);
    assert InFlight(s, p).None?;
    if id in s.running {
      SameFlight(s, t);
    } else {
      assert InFlight(t, p) == Some(id);
      forall other | other in t.running ensures exists q :: InFlight(t, q) == Some(other) {
        if other != id {
          var q :| InFlight(s, q) == Some(other);
          assert InFlight(t, q) == Some(other);
        }
      }
    }
  }

  lemma EndExclusion(cron: CronNext, s: Sched, p: nat, outcome: Outcome, now: int)
    requires RefsOk(s) && ExclusionOk(s) && Enabled(s, TaskEnds(p, outcome, now)) && PassRefsOk(s.passes[p], |s.heap|)
    ensures ExclusionOk(EndTask(cron, s, p, outcome, now))
  {
    var t := EndTask(cron, s, p, outcome, now);
    assert forall r :: 0 <= r < |s.heap| ==> t.heap[r].id == s.heap[r].id;
    forall q | q != p ensures InFlight(t, q) == InFlight(s, q) {
    }
    assert InFlight(t, p).None? && InFlight(s, p).Some?;
    forall id | id in t.running ensures exists q :: InFlight(t, q) == Some(id) {
      var q :| InFlight(s, q) == Some(id);
      assert InFlight(t, q) == Some(id);
    }
  }

  lemma StepExclusion(cron: CronNext, s: Sched, e: Event)
    requires RefsOk(s) && ExclusionOk(s) && Enabled(s, e)
    ensures ExclusionOk(Apply(cron, s, e))
  {
    match e
    case PassNext(p, runAt) =>
      assert PassRefsOk(s.passes[p], |s.heap|);
      NextExclusion(s, p, runAt);
    case TaskEnds(p, outcome, now) =>
      assert PassRefsOk(s.passes[p], |s.heap|);
      EndExclusion(cron, s, p, outcome, now);
    case UpsertTask(_, _) =>
      forall p | p in s.passes ensures PassRefsOk(s.passes[p], |s.heap|) {
      }
      SameFlight(s, Apply(cron, s, e));
    case RemoveTask(_) => SameFlight(s, Apply(cron, s, e));
    case PassStarts(_, _, _) => SameFlight(s, Apply(cron, s, e));
    case PassEnds(_) => SameFlight(s, Apply(cron, s, e));
  }

  // Counts.

  lemma EndCounts(cron: CronNext, s: Sched, p: nat, outcome: Outcome, now: int)
    requires RefsOk(s) && ExclusionOk(s) && CountsOk(s)
    requires Enabled(s, TaskEnds(p, outcome, now)) && PassRefsOk(s.passes[p], |s.heap|)
    ensures CountsOk(EndTask(cron, s, p, outcome, now))
  {
    assert InFlight(s, p).Some?;
  }

  lemma NextCounts(s: Sched, p: nat, runAt: int)
    requires CountsOk(s) && Enabled(s, PassNext(p, runAt)) && s.passes[p].due[0] < |s.heap|
    ensures CountsOk(NextTask(s, p, runAt))
  {
  }

  lemma StepCounts(cron: CronNext, s: Sched, e: Event)
    requires RefsOk(s) && ExclusionOk(s) && CountsOk(s) && Enabled(s, e)
    ensures CountsOk(Apply(cron, s, e))
  {
    if e.TaskEnds? {
      assert PassRefsOk(s.passes[e.p], |s.heap|);
      EndCounts(cron, s, e.p, e.outcome, e.now);
    } else if e.PassNext? {
      assert PassRefsOk(s.passes[e.p], |s.heap|);
      NextCounts(s, e.p, e.runAt);
    }
  }

  // Phases.

  /** A success moves an interval task along its own lattice. */
  lemma MarkKeepsPhase(cron: CronNext, task: Task, phase: Option<int>, now: int)
    requires (Valid(task) || task.kind.Once?) && OnPhase(task, phase) && (task.kind.Interval? ==> task.nextRun.Some?)
    ensures OnPhase(MarkAfterSuccess(cron, task, now), phase)
  {
    if task.kind.Interval? {
      CatchUpClosedForm(task.nextRun.value, task.kind.seconds, now);
      LatticeTransitive(CatchUp(task.nextRun.value, task.kind.seconds, now), task.nextRun.value, phase.value,
                        task.kind.seconds);
    }
  }

  lemma EndPhases(cron: CronNext, s: Sched, p: nat, outcome: Outcome, now: int)
    requires RefsOk(s) && PhasesOk(s) && Enabled(s, TaskEnds(p, outcome, now)) && PassRefsOk(s.passes[p], |s.heap|)
    ensures PhasesOk(EndTask(cron, s, p, outcome, now))
  {
    var t := EndTask(cron, s, p, outcome, now);
    assert PassPlanned(s.passes[p], s.heap);
    var ref := s.passes[p].current.value.ref;
    MarkKeepsPhase(cron, s.heap[ref], s.phases[ref], now);
    forall q | q in t.passes ensures PassPlanned(t.passes[q], t.heap) {
      assert PassPlanned(s.passes[q], s.heap);
    }
  }

  lemma StepPhases(cron: CronNext, s: Sched, e: Event)
    requires RefsOk(s) && PhasesOk(s) && Enabled(s, e)
    ensures PhasesOk(Apply(cron, s, e))
  {
    var t := Apply(cron, s, e);
    if e.TaskEnds? {
      assert PassRefsOk(s.passes[e.p], |s.heap|);
      EndPhases(cron, s, e.p, e.outcome, e.now);
      return;
    }
    forall p | p in t.passes ensures PassPlanned(t.passes[p], t.heap) {
      if p in s.passes {
        assert PassPlanned(s.passes[p], s.heap) && PassRefsOk(s.passes[p], |s.heap|);
      }
    }
  }

  lemma StepInv(cron: CronNext, s: Sched, e: Event)
    requires Inv(s) && Enabled(s, e)
    ensures Inv(Apply(cron, s, e))
  {
    StepRefs(cron, s, e);
    StepExclusion(cron, s, e);
    StepCounts(cron, s, e);
    StepPhases(cron, s, e);
  }
}
