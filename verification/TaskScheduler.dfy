/**
 The scheduler object of services/scheduler.py: a dictionary of task objects
 that are updated in place. `run_pending` is suspended while a task executes,
 so it is split at that point: `StartPass`, `BeginTask`, `FinishTask` and
 `EndPass` are its parts, and each is one step of the state machine.
 */
module TaskScheduler {
  import opened Wrappers
  import opened Strings
  import opened Sorting
  import opened TaskScheduling

  class ScheduledTask {
    const id: Text
    const kind: Kind
    var status: TaskStatus
    var nextRun: Option<int>

    function Value(): Task
      reads this
    {
      Task(id, kind, status, nextRun)
    }

    constructor (task: Task)
      ensures Value() == task
    {
      id, kind, status, nextRun := task.id, task.kind, task.status, task.nextRun;
    }
  }

  /** `(next_run, id)`. */
  predicate Earlier(a: Task, b: Task) {
    KeyLess(Key([a.nextRun.GetOr(0)], a.id), Key([b.nextRun.GetOr(0)], b.id))
  }

  lemma EarlierIsOrder()
    ensures StrictOrder(Earlier)
  {
    forall a, b ensures Earlier(a, b) ==> !Earlier(b, a) {
      KeyOrder(Key([a.nextRun.GetOr(0)], a.id), Key([b.nextRun.GetOr(0)], b.id), Key([], []));
    }
    forall a, b, c ensures Earlier(a, b) && Earlier(b, c) ==> Earlier(a, c) {
      KeyOrder(Key([a.nextRun.GetOr(0)], a.id), Key([b.nextRun.GetOr(0)], b.id), Key([c.nextRun.GetOr(0)], c.id));
    }
  }

  /** By planned time, then by id. */
  lemma EarlierMeans(a: Task, b: Task)
    requires Earlier(a, b)
    ensures a.nextRun.GetOr(0) < b.nextRun.GetOr(0)
            || (a.nextRun.GetOr(0) == b.nextRun.GetOr(0) && LexLess(a.id, b.id))
    ensures a != b
  {
    KeyOrder(Key([a.nextRun.GetOr(0)], a.id), Key([a.nextRun.GetOr(0)], a.id), Key([], []));
    LexOne(a.nextRun.GetOr(0), b.nextRun.GetOr(0));
  }

  class Scheduler {
    const cron: CronNext
    var tasks: map<Text, ScheduledTask>
    var runningTaskIds: set<Text>
    ghost var heap: seq<ScheduledTask>
    ghost var refs: map<Text, nat>
    ghost var passes: map<nat, Pass>
    ghost var begun: nat
    ghost var ended: nat
    ghost var marked: seq<nat>
    ghost var phases: seq<Option<int>>

    ghost function ValuesOf(objects: seq<ScheduledTask>): (values: seq<Task>)
      reads objects
      ensures |values| == |objects| && forall i :: 0 <= i < |objects| ==> values[i] == objects[i].Value()
    {
      if objects == [] then [] else ValuesOf(objects[..|objects| - 1]) + [objects[|objects| - 1].Value()]
    }

    /** The fields and the task objects, as the state the step functions work on. */
    ghost function Value(): Sched
      reads this, heap
    {
      Sched(refs, ValuesOf(heap), runningTaskIds, passes, begun, ended, marked, phases)
    }

    /** The numbering of task objects that `Value` goes by. */
    ghost predicate Numbered()
      reads this, heap
    {
      && (forall i, j :: 0 <= i < j < |heap| ==> heap[i] != heap[j])
      && refs.Keys == tasks.Keys
      && (forall id | id in tasks :: refs[id] < |heap| && heap[refs[id]] == tasks[id] && tasks[id].id == id)
    }

    ghost predicate Valid()
      reads this, heap
    {
      Numbered() && RefsOk(Value())
    }

    constructor (cron: CronNext)
      ensures Valid() && Value() == EMPTY && this.cron == cron
    {
      this.cron := cron;
      tasks, runningTaskIds := map[], {};
      heap, refs, passes, begun, ended, marked, phases := [], map[], map[], 0, 0, [], [];
    }

    // ---- tasks --------------------------------------------------------

    /** `_compute_next_run`, with the loop that catches up on missed intervals. */
    method ComputeNextRun(task: ScheduledTask, now: int) returns (nextRun: Option<int>)
      requires task.kind.Interval? ==> task.kind.seconds > 0
      ensures nextRun == TaskScheduling.ComputeNextRun(cron, task.Value(), now)
      ensures task.kind.Interval? ==>
                var anchor, step := task.nextRun.GetOr(now), task.kind.seconds;
                nextRun == Some(if anchor <= now then anchor + ((now - anchor) / step + 1) * step else anchor)
      ensures task.kind.Cron? ==> nextRun == Some(cron(task.kind.expression, task.nextRun.GetOr(now)))
      ensures task.kind.Once? ==> nextRun == None
    {
      var anchor := if task.nextRun.Some? then task.nextRun.value else now;
      match task.kind
      case Interval(seconds) =>
        var next := anchor;
        while next <= now
          invariant CatchUp(next, seconds, now) == CatchUp(anchor, seconds, now)
          decreases now - next
        {
          next := next + seconds;
        }
        nextRun := Some(next);
        CatchUpClosedForm(anchor, seconds, now);
      case Cron(expression) => nextRun := Some(cron(expression, anchor));
      case Once => nextRun := None;
    }

    method MarkTaskAfterSuccess(task: ScheduledTask, now: int)
      requires task.kind.Once? || TaskScheduling.Valid(task.Value())
      modifies task
      ensures task.Value() == MarkAfterSuccess(cron, old(task.Value()), now)
      ensures task.kind.Once? ==> task.status == Done && task.nextRun == None
      ensures !task.kind.Once? ==> task.status == old(task.status) && task.nextRun.Some?
      ensures task.kind.Cron? ==> task.nextRun == Some(cron(task.kind.expression, old(task.nextRun.GetOr(now))))
      ensures task.kind.Interval? ==>
                var anchor, step := old(task.nextRun.GetOr(now)), task.kind.seconds;
                task.nextRun == Some(if anchor <= now then anchor + ((now - anchor) / step + 1) * step else anchor)
    {
      if task.kind.Once? {
        task.status := Done;
        task.nextRun := None;
        return;
      }
      task.nextRun := ComputeNextRun(task, now);
    }

    method Initialize(task: ScheduledTask, now: int)
      modifies task
      ensures task.Value() == InitializeNextRun(cron, old(task.Value()), now)
    {
      if task.status == Active && task.nextRun.None? {
        match task.kind
        case Interval(seconds) => task.nextRun := Some(now + seconds);
        case Cron(expression) => task.nextRun := Some(cron(expression, now));
        case Once =>
      }
    }

    /** Objects that are already numbered keep their values while a new one is planned. */
    twostate lemma OthersSame()
      requires heap == old(heap) && forall o | o in heap :: unchanged(o)
      ensures ValuesOf(heap) == old(ValuesOf(heap))
    {
      forall i | 0 <= i < |heap| ensures heap[i].Value() == old(heap[i].Value()) {
        assert heap[i] in heap;
      }
    }

    twostate lemma OneChanged(r: nat)
      requires old(Numbered()) && heap == old(heap) && r < |heap|
      requires forall o | o in heap && o != heap[r] :: unchanged(o)
      ensures ValuesOf(heap) == old(ValuesOf(heap))[r := heap[r].Value()]
    {
      forall i | 0 <= i < |heap| && i != r ensures heap[i].Value() == old(heap[i].Value()) {
        assert heap[i] in heap && heap[i] != heap[r];
      }
    }

    method Enter(task: ScheduledTask)
      requires Numbered() && task !in heap
      modifies this`tasks, this`heap, this`refs, this`phases
      ensures Numbered() && tasks == old(tasks)[task.id := task]
      ensures Value() == old(Value()).(tasks := old(refs)[task.id := old(|heap|)],
                                       heap := old(ValuesOf(heap)) + [task.Value()],
                                       phases := old(phases) + [task.nextRun])
    {
      tasks := tasks[task.id := task];
      refs := refs[task.id := |heap|];
      heap := heap + [task];
      phases := phases + [task.nextRun];
      assert heap[..|heap| - 1] == old(heap);
    }

    method UpsertTask(task: ScheduledTask, now: int) returns (accepted: bool)
      requires Valid() && task !in heap
      modifies this`tasks, this`heap, this`refs, this`phases, task
      ensures Valid() && Value() == Apply(cron, old(Value()), Event.UpsertTask(old(task.Value()), now))
      ensures accepted <==> (task.kind.Interval? ==> task.kind.seconds > 0)
                            && (task.kind.Once? ==> old(task.nextRun).Some?)
      ensures !accepted ==> task.Value() == old(task.Value()) && tasks == old(tasks)
      ensures accepted ==> tasks == old(tasks)[task.id := task] && task.status == old(task.status)
      ensures accepted ==>
                task.nextRun ==
                  if old(task.nextRun).Some? || task.status != Active then old(task.nextRun)
                  else match task.kind
                       case Once => None
                       case Interval(seconds) => Some(now + seconds)
                       case Cron(expression) => Some(cron(expression, now))
    {
      StepRefs(cron, Value(), Event.UpsertTask(task.Value(), now));
      accepted := TaskScheduling.Valid(task.Value());
      if accepted {
        label planning:
        Initialize(task, now);
        OthersSame@planning();
        Enter(task);
      }
    }

    method Forget(id: Text)
      requires Numbered()
      modifies this`tasks, this`refs
      ensures Numbered() && tasks == old(tasks) - {id}
      ensures Value() == old(Value()).(tasks := old(refs) - {id})
    {
      tasks := tasks - {id};
      refs := refs - {id};
    }

    method RemoveTask(id: Text) returns (removed: bool)
      requires Valid()
      modifies this`tasks, this`refs
      ensures Valid() && Value() == Apply(cron, old(Value()), Event.RemoveTask(id))
      ensures removed == (id in old(tasks))
    {
      StepRefs(cron, Value(), Event.RemoveTask(id));
      removed := id in tasks;
      Forget(id);
    }

    // ---- one pass of `run_pending` ------------------------------------

    predicate Runnable(task: Task, now: int)
      reads this, tasks.Values
    {
      task.id in tasks && task == tasks[task.id].Value() && task.id !in runningTaskIds && IsDue(task, now)
    }

    /** The filter of `run_pending`. */
    method CollectDue(now: int) returns (found: seq<Task>)
      requires Numbered()
      ensures forall task :: task in found <==> Runnable(task, now)
      ensures forall i, j :: 0 <= i < j < |found| ==> found[i].id != found[j].id
    {
      found := [];
      var todo := tasks.Keys;
      while todo != {}
        invariant todo <= tasks.Keys
        invariant forall task :: task in found <==> Runnable(task, now) && task.id !in todo
        invariant forall i, j :: 0 <= i < j < |found| ==> found[i].id != found[j].id
        decreases todo
      {
        var id :| id in todo;
        todo := todo - {id};
        var task := tasks[id].Value();
        if Runnable(task, now) {
          found := found + [task];
        }
      }
    }

    lemma SortedDue(found: seq<Task>)
      requires forall i, j :: 0 <= i < j < |found| ==> found[i].id != found[j].id
      ensures Sorted(Earlier, Sort(Earlier, found)) && multiset(Sort(Earlier, found)) == multiset(found)
    {
      EarlierIsOrder();
      forall i, j | 0 <= i < j < |found| ensures Earlier(found[i], found[j]) || Earlier(found[j], found[i]) {
        KeyOrder(Key([found[i].nextRun.GetOr(0)], found[i].id), Key([found[j].nextRun.GetOr(0)], found[j].id),
                 Key([], []));
      }
      SortSorts(Earlier, found);
    }

    /** The objects of the found tasks, and their numbers. */
    method Objects(ordered: seq<Task>, now: int) returns (due: seq<ScheduledTask>, ghost numbers: seq<nat>)
      requires Numbered() && forall task | task in ordered :: Runnable(task, now)
      ensures |due| == |numbers| == |ordered|
      ensures forall k :: 0 <= k < |due| ==>
                ordered[k].id in tasks && due[k] == tasks[ordered[k].id] && due[k].Value() == ordered[k]
                && numbers[k] == refs[ordered[k].id]
    {
      due, numbers := [], [];
      for i := 0 to |ordered|
        invariant |due| == |numbers| == i
        invariant forall k :: 0 <= k < i ==>
                    ordered[k].id in tasks && due[k] == tasks[ordered[k].id] && due[k].Value() == ordered[k]
                    && numbers[k] == refs[ordered[k].id]
      {
        assert Runnable(ordered[i], now);
        due, numbers := due + [tasks[ordered[i].id]], numbers + [refs[ordered[i].id]];
      }
    }

    /** Sorted runnable tasks, as numbers, are the due list. */
    lemma NumbersAreDue(ordered: seq<Task>, numbers: seq<nat>, now: int)
      requires Numbered() && Sorted(Earlier, ordered) && |numbers| == |ordered|
      requires forall task :: task in ordered <==> Runnable(task, now)
      requires forall k :: 0 <= k < |ordered| ==> ordered[k].id in tasks && numbers[k] == refs[ordered[k].id]
      ensures DueList(Value(), now, numbers)
    {
      forall i | 0 <= i < |numbers|
        ensures Runnable(ordered[i], now) && numbers[i] < |heap| && heap[numbers[i]].Value() == ordered[i]
      {
        assert ordered[i] in ordered;
      }
      forall i, j | 0 <= i < j < |numbers|
        ensures numbers[i] != numbers[j] && ordered[i].nextRun.value <= ordered[j].nextRun.value
      {
        assert Runnable(ordered[i], now) && Runnable(ordered[j], now) && Earlier(ordered[i], ordered[j]);
        EarlierMeans(ordered[i], ordered[j]);
      }
      forall id | id in refs && id !in runningTaskIds && IsDue(heap[refs[id]].Value(), now)
        ensures refs[id] in numbers
      {
        assert Runnable(tasks[id].Value(), now);
        var k :| 0 <= k < |ordered| && ordered[k] == tasks[id].Value();
        assert numbers[k] == refs[id];
      }
    }

    /** The due tasks that are not running, by time and then id. */
    method DueTasks(now: int) returns (due: seq<ScheduledTask>, ghost numbers: seq<nat>)
      requires Numbered()
      ensures |due| == |numbers| && forall k :: 0 <= k < |due| ==> numbers[k] < |heap| && heap[numbers[k]] == due[k]
      ensures DueList(Value(), now, numbers)
      ensures forall i, j :: 0 <= i < j < |due| ==> Earlier(due[i].Value(), due[j].Value())
    {
      var found := CollectDue(now);
      SortedDue(found);
      var ordered := Sort(Earlier, found);
      SameElements(ordered, found);
      due, numbers := Objects(ordered, now);
      NumbersAreDue(ordered, numbers, now);
    }

    /** `run_pending` up to its loop. */
    method StartPass(ghost p: nat, now: int) returns (due: seq<ScheduledTask>)
      requires Valid() && p !in passes
      modifies this`passes
      ensures p in passes && Enabled(old(Value()), PassStarts(p, now, passes[p].due))
      ensures Valid() && Value() == Apply(cron, old(Value()), PassStarts(p, now, passes[p].due))
      ensures |due| == |passes[p].due|
      ensures forall k :: 0 <= k < |due| ==> passes[p].due[k] < |heap| && heap[passes[p].due[k]] == due[k]
      ensures forall id | id in tasks :: tasks[id] in due <==>
                && id !in runningTaskIds && tasks[id].status == Active
                && tasks[id].nextRun.Some? && tasks[id].nextRun.value <= now
      ensures forall o | o in due :: o.id in tasks && tasks[o.id] == o
      ensures forall i, j :: 0 <= i < j < |due| ==>
                due[i].nextRun.GetOr(0) < due[j].nextRun.GetOr(0)
                || (due[i].nextRun == due[j].nextRun && LexLess(due[i].id, due[j].id))
    {
      ghost var numbers;
      due, numbers := DueTasks(now);
      DueAre(now, due, numbers);
      DueInOrder(due);
      OpenPass(p, now, numbers);
    }

    lemma DueInOrder(due: seq<ScheduledTask>)
      requires forall o | o in due :: o.nextRun.Some?
      requires forall i, j :: 0 <= i < j < |due| ==> Earlier(due[i].Value(), due[j].Value())
      ensures forall i, j :: 0 <= i < j < |due| ==>
                due[i].nextRun.GetOr(0) < due[j].nextRun.GetOr(0)
                || (due[i].nextRun == due[j].nextRun && LexLess(due[i].id, due[j].id))
    {
      forall i, j | 0 <= i < j < |due|
        ensures due[i].nextRun.GetOr(0) < due[j].nextRun.GetOr(0)
                || (due[i].nextRun == due[j].nextRun && LexLess(due[i].id, due[j].id))
      {
        assert due[i] in due && due[j] in due;
        EarlierMeans(due[i].Value(), due[j].Value());
      }
    }

    /** The due list, in terms of the fields of the task objects. */
    lemma DueAre(now: int, due: seq<ScheduledTask>, numbers: seq<nat>)
      requires Numbered() && DueList(Value(), now, numbers) && |due| == |numbers|
      requires forall k :: 0 <= k < |due| ==> numbers[k] < |heap| && heap[numbers[k]] == due[k]
      ensures forall id | id in tasks :: tasks[id] in due <==>
                && id !in runningTaskIds && tasks[id].status == Active
                && tasks[id].nextRun.Some? && tasks[id].nextRun.value <= now
      ensures forall o | o in due :: o.id in tasks && tasks[o.id] == o
    {
      forall k | 0 <= k < |due|
        ensures due[k].id in tasks && tasks[due[k].id] == due[k] && due[k].id !in runningTaskIds
        ensures IsDue(due[k].Value(), now)
      {
        assert Value().heap[numbers[k]] == due[k].Value();
      }
      forall id | id in tasks && id !in runningTaskIds && IsDue(tasks[id].Value(), now) ensures tasks[id] in due {
        assert refs[id] in numbers;
        var k :| 0 <= k < |numbers| && numbers[k] == refs[id];
        assert due[k] == tasks[id];
      }
    }

    ghost method OpenPass(p: nat, now: int, numbers: seq<nat>)
      requires Valid() && p !in passes && DueList(Value(), now, numbers)
      modifies this`passes
      ensures Valid() && Value() == Apply(cron, old(Value()), PassStarts(p, now, numbers))
      ensures passes == old(passes)[p := Pass(now, numbers, None)]
    {
      StepRefs(cron, Value(), PassStarts(p, now, numbers));
      passes := passes[p := Pass(now, numbers, None)];
    }

    /** `_execute_task` up to the call of the executor. */
    method BeginTask(ghost p: nat, task: ScheduledTask, ghost runAt: int) returns (started: bool)
      requires Valid() && Enabled(Value(), PassNext(p, runAt))
      requires passes[p].due[0] < |heap| && heap[passes[p].due[0]] == task
      modifies this`runningTaskIds, this`passes, this`begun
      ensures Valid() && Value() == Apply(cron, old(Value()), PassNext(p, runAt))
      ensures started == (task.id !in old(runningTaskIds))
    {
      StepRefs(cron, Value(), PassNext(p, runAt));
      assert Value().heap[passes[p].due[0]] == task.Value();
      if task.id in runningTaskIds {
        PassOver(p);
        return false;
      }
      TakeUp(p, task.id, runAt);
      started := true;
    }

    ghost method PassOver(p: nat)
      requires Numbered() && p in passes && passes[p].due != []
      modifies this`passes
      ensures Numbered() && Value() == old(Value()).(passes := passes)
      ensures passes == old(passes)[p := old(passes)[p].(due := old(passes)[p].due[1..])]
    {
      passes := passes[p := passes[p].(due := passes[p].due[1..])];
    }

    method TakeUp(ghost p: nat, id: Text, ghost runAt: int)
      requires Numbered() && p in passes && passes[p].due != []
      modifies this`runningTaskIds, this`passes, this`begun
      ensures Numbered()
      ensures Value() == old(Value()).(running := old(runningTaskIds) + {id}, begun := old(begun) + 1, passes := passes)
      ensures var pass := old(passes)[p];
              passes == old(passes)[p := pass.(due := pass.due[1..], current := Some(Execution(pass.due[0], runAt)))]
    {
      ghost var pass := passes[p];
      runningTaskIds := runningTaskIds + {id};
      begun := begun + 1;
      passes := passes[p := pass.(due := pass.due[1..], current := Some(Execution(pass.due[0], runAt)))];
    }

    /** The rest of `_execute_task`: only a return advances the schedule, and the id is released in every case. */
    method FinishTask(ghost p: nat, task: ScheduledTask, outcome: Outcome, now: int)
      requires Valid() && Enabled(Value(), TaskEnds(p, outcome, now))
      requires passes[p].current.value.ref < |heap| && heap[passes[p].current.value.ref] == task
      modifies this`runningTaskIds, this`passes, this`ended, this`marked, task
      ensures Valid() && Value() == Apply(cron, old(Value()), TaskEnds(p, outcome, now))
      ensures runningTaskIds == old(runningTaskIds) - {task.id}
      ensures outcome != Returned ==> task.Value() == old(task.Value())
      ensures outcome == Returned && task.kind.Once? ==> task.status == Done && task.nextRun == None
      ensures outcome == Returned && task.kind.Cron? ==>
                task.nextRun == Some(cron(task.kind.expression, old(task.nextRun.GetOr(now))))
    {
      StepRefs(cron, Value(), TaskEnds(p, outcome, now));
      assert PassRefsOk(Value().passes[p], |heap|);
      assert Value().heap[passes[p].current.value.ref] == task.Value();
      ghost var ref := passes[p].current.value.ref;
      Conclude(p, task, outcome, now);
      assert Value().heap[ref] == task.Value() && Value().running == runningTaskIds;
    }

    method Advance(ghost ref: nat, task: ScheduledTask, now: int)
      requires Numbered() && ref < |heap| && heap[ref] == task
      requires task.kind.Once? || TaskScheduling.Valid(task.Value())
      modifies this`marked, task
      ensures Numbered()
      ensures Value() == old(Value()).(
                heap := old(ValuesOf(heap))[ref := MarkAfterSuccess(cron, old(task.Value()), now)],
                marked := old(marked) + [ref])
    {
      MarkTaskAfterSuccess(task, now);
      OneChanged(ref);
      marked := marked + [ref];
    }

    method Conclude(ghost p: nat, task: ScheduledTask, outcome: Outcome, now: int)
      requires Numbered() && p in passes && passes[p].current.Some?
      requires passes[p].current.value.ref < |heap| && heap[passes[p].current.value.ref] == task
      requires task.kind.Once? || TaskScheduling.Valid(task.Value())
      modifies this`runningTaskIds, this`passes, this`ended, this`marked, task
      ensures Numbered()
      ensures Value() == old(Value()).(
                heap := if outcome == Returned
                        then old(ValuesOf(heap))[old(passes)[p].current.value.ref
                                                 := MarkAfterSuccess(cron, old(task.Value()), now)]
                        else old(ValuesOf(heap)),
                running := old(runningTaskIds) - {task.id},
                passes := if outcome == Cancelled then old(passes) - {p}
                          else old(passes)[p := old(passes)[p].(current := None)],
                ended := old(ended) + 1,
                marked := if outcome == Returned then old(marked) + [old(passes)[p].current.value.ref] else old(marked))
    {
      if outcome == Returned {
        Advance(passes[p].current.value.ref, task, now);
      }
      Release(p, task.id, outcome);
    }

    /** The `finally` block, and the end of the pass when the executor was cancelled. */
    method Release(ghost p: nat, id: Text, outcome: Outcome)
      requires Numbered() && p in passes
      modifies this`runningTaskIds, this`passes, this`ended
      ensures Numbered()
      ensures Value() == old(Value()).(
                running := old(runningTaskIds) - {id}, ended := old(ended) + 1,
                passes := if outcome == Cancelled then old(passes) - {p}
                          else old(passes)[p := old(passes)[p].(current := None)])
    {
      runningTaskIds := runningTaskIds - {id};
      ended := ended + 1;
      passes := if outcome == Cancelled then passes - {p} else passes[p := passes[p].(current := None)];
    }

    ghost method EndPass(p: nat)
      requires Valid() && Enabled(Value(), PassEnds(p))
      modifies this`passes
      ensures Valid() && Value() == Apply(cron, old(Value()), PassEnds(p))
    {
      StepRefs(cron, Value(), PassEnds(p));
      passes := passes - {p};
    }
  }
}
