/**
 Exclusion, starting order, progress and what the monitor shows: results that
 follow from the invariant and the steps of the coordinator.
 */
module CoordinatorProgress {
  import opened Wrappers
  import opened Execution
  import opened WorkspaceLifecycle
  import opened CoordinatorSteps
  import opened CoordinatorInvariant
  import opened CoordinatorPreservation
  import opened CoordinatorHistory

  // ---- exclusion and starting order -----------------------------------

  /** Main result: per group at most one execution task exists, even while a cancelled one unwinds. */
  lemma OneTaskPerGroup(cfg: Config, s: State, r1: RunId, r2: RunId)
    requires Inv(cfg, s) && r1 in s.tasks && r2 in s.tasks
    requires s.tasks[r1].request.group == s.tasks[r2].request.group
    ensures r1 == r2
  {
    assert RunOk(cfg, r1, View(s, r1)) && RunOk(cfg, r2, View(s, r2));
  }

  function EntriesOf(popped: seq<Pop>): (entries: seq<Entry>)
    ensures |entries| == |popped|
    ensures forall i | 0 <= i < |popped| :: entries[i] == popped[i].entry
  {
    seq(|popped|, i requires 0 <= i < |popped| => popped[i].entry)
  }

  /** The positions, in submission order, of the entries the worker started. */
  function StartedAt(popped: seq<Pop>): (starts: seq<nat>)
    ensures forall k | 0 <= k < |starts| :: starts[k] < |popped| && popped[starts[k]].place == Started
    ensures forall k, l | 0 <= k < l < |starts| :: starts[k] < starts[l]
    ensures forall i | 0 <= i < |popped| && popped[i].place == Started :: i in starts
  {
    if popped == [] then [] else
      var rest := StartedAt(popped[..|popped| - 1]);
      if popped[|popped| - 1].place == Started then rest + [|popped| - 1] else rest
  }

  /**
   Main result: a group's submissions are what its worker has taken, in order,
   followed by its queue, and its starts are the submissions at the positions
   `StartedAt` lists. What was taken but never started was cancelled while
   queued, or its future had been abandoned, or no registered backend was
   selected for it; and none of those ever called a backend.
   */
  lemma StartsFollowSubmissions(cfg: Config, s: State, group: string, i: nat)
    requires Inv(cfg, s)
    ensures At(s.past.submitted, group) == EntriesOf(At(s.past.popped, group)) + At(s.queues, group)
    ensures forall run | run in s.past.known && s.past.known[run].request.group == group ::
              PlaceOf(s, run) == Started <==> s.past.known[run].index in StartedAt(At(s.past.popped, group))
    ensures i < |At(s.past.popped, group)| ==>
              var pop := At(s.past.popped, group)[i];
              && pop.entry.run in s.past.known && PlaceOf(s, pop.entry.run) == pop.place
              && (pop.place == Started ==> Selectable(cfg, pop.entry.request))
              && (pop.place != Started ==>
                    && At(s.past.calls, pop.entry.run) == [] && pop.entry.run !in s.tasks
                    && match pop.place
                       case Skipped => StageOf(s, pop.entry.run).Ended?
                                       && StageOf(s, pop.entry.run).result.status == Cancelled
                       case Dropped => pop.entry.run in s.past.abandoned
                       case _ => !Selectable(cfg, pop.entry.request)
                                 && StageOf(s, pop.entry.run).Ended?
                                 && StageOf(s, pop.entry.run).result.status == Failed)
  {
    var v := ViewGroup(s, group);
    assert GroupOk(v);
    assert At(s.past.submitted, group) == EntriesOf(v.popped) + v.queue;
    if i < |v.popped| {
      var entry := At(s.past.submitted, group)[i];
      assert entry == v.popped[i].entry;
      assert RunOk(cfg, entry.run, View(s, entry.run));
    }
  }

  /** A queue entry is still waiting: it is either live and queued, or was cancelled in the queue. */
  lemma QueueEntries(cfg: Config, s: State, group: string, i: nat)
    requires Inv(cfg, s) && i < |At(s.queues, group)|
    ensures var entry := At(s.queues, group)[i];
            && Lookup(s.past.known, entry.run) == Some(Known(entry.request, |At(s.past.popped, group)| + i))
            && entry.request.group == group && PlaceOf(s, entry.run) == Waiting
            && (entry.run in s.requests <==> StageOf(s, entry.run) == InQueue)
            && (entry.run !in s.requests ==> StageOf(s, entry.run).Ended?
                                             && StageOf(s, entry.run).result.status == Cancelled)
  {
    var v := ViewGroup(s, group);
    assert GroupOk(v);
    var entry := At(s.queues, group)[i];
    assert entry == At(s.past.submitted, group)[|v.popped| + i];
    assert RunOk(cfg, entry.run, View(s, entry.run));
  }

  // ---- progress -------------------------------------------------------

  function Rank(s: State, group: string): nat {
    if group !in s.workers then 0
    else match s.workers[group]
      case Ready => 1
      case Awaiting(run) =>
        if run !in s.tasks then 0
        else match s.tasks[run].phase
          case Scheduled => 5
          case FirstCall => 4
          case SecondCall(_) => 3
          case _ => 2
  }

  /** How much is left to do for a group. */
  function Work(s: State, group: string): nat {
    6 * |At(s.queues, group)| + Rank(s, group)
  }

  /** The group whose worker or execution task takes the step. */
  function StepOf(s: State, e: Event): Option<string> {
    match e
    case WorkerTurn(group) => Some(group)
    case WorkerResume(group) => Some(group)
    case TaskBegin(run) => if run in s.tasks then Some(s.tasks[run].request.group) else None
    case CallEnd(run, _) => if run in s.tasks then Some(s.tasks[run].request.group) else None
    case TaskUnwind(run) => if run in s.tasks then Some(s.tasks[run].request.group) else None
    case _ => None
  }

  /** A nonempty queue always has a worker, and whenever something is left to do some step of the group is possible. */
  lemma NeverStuck(cfg: Config, s: State, group: string, outcome: Outcome) returns (e: Event)
    requires Inv(cfg, s) && Work(s, group) > 0
    requires group in s.workers && s.workers[group].Awaiting? ==> WellFormed(s.workers[group].run, outcome)
    ensures Enabled(s, e) && StepOf(s, e) == Some(group)
  {
    assert GroupOk(ViewGroup(s, group));
    if s.workers[group].Ready? {
      e := WorkerTurn(group);
    } else {
      var run := s.workers[group].run;
      assert RunOk(cfg, run, View(s, run));
      var task := s.tasks[run];
      if Done(task) {
        e := WorkerResume(group);
      } else if task.cancelRequested {
        e := TaskUnwind(run);
      } else if task.phase.Scheduled? {
        e := TaskBegin(run);
      } else {
        e := CallEnd(run, outcome);
      }
    }
  }

  lemma {:induction false} TurnWork(cfg: Config, s: State, group: string)
    requires Inv(cfg, s) && group in s.workers && s.workers[group].Ready?
    ensures var t := Turn(cfg, s, group);
            || (At(t.queues, group) == [] && group !in t.workers)
            || |At(t.queues, group)| < |At(s.queues, group)|
    decreases |At(s.queues, group)|
  {
    if At(s.queues, group) != [] {
      PopHeadShortens(cfg, s, group);
      PopHeadInv(cfg, s, group);
      PopHeadKeepsWorker(cfg, s, group);
      var t := PopHead(cfg, s, group);
      if t.workers[group].Ready? {
        TurnWork(cfg, t, group);
      }
    }
  }

  lemma TaskStepWork(cfg: Config, s: State, t: State, run: RunId, phase: Phase)
    requires Inv(cfg, s) && PhaseMove(s, t, run, phase)
    requires !Done(s.tasks[run]) && !phase.Scheduled?
    requires s.tasks[run].phase.FirstCall? ==> !phase.FirstCall?
    requires s.tasks[run].phase.SecondCall? ==> !phase.FirstCall? && !phase.SecondCall?
    ensures Work(t, s.tasks[run].request.group) < Work(s, s.tasks[run].request.group)
  {
    assert RunOk(cfg, run, View(s, run));
  }

  lemma TurnDecreases(cfg: Config, s: State, group: string)
    requires Inv(cfg, s) && group in s.workers && s.workers[group].Ready?
    ensures Work(Turn(cfg, s, group), group) < Work(s, group)
  {
    TurnWork(cfg, s, group);
  }

  lemma FinishDecreases(cfg: Config, s: State, group: string)
    requires Enabled(s, WorkerResume(group))
    ensures Work(FinishRun(cfg, s, group), group) < Work(s, group)
  {
  }

  lemma ResumeDecreases(cfg: Config, s: State, group: string)
    requires Inv(cfg, s) && Enabled(s, WorkerResume(group))
    ensures Work(Apply(cfg, s, WorkerResume(group)), group) < Work(s, group)
  {
    FinishInv(cfg, s, group);
    FinishDecreases(cfg, s, group);
    TurnDecreases(cfg, FinishRun(cfg, s, group), group);
  }

  lemma CallEndDecreases(cfg: Config, s: State, run: RunId, outcome: Outcome)
    requires Inv(cfg, s) && Enabled(s, CallEnd(run, outcome))
    ensures Work(EndCall(cfg, s, run, outcome), s.tasks[run].request.group) < Work(s, s.tasks[run].request.group)
  {
    assert RunOk(cfg, run, View(s, run));
    var phase := CallEndMoves(cfg, s, run, outcome);
    TaskStepWork(cfg, s, EndCall(cfg, s, run, outcome), run, phase);
  }

  lemma TaskEventDecreases(cfg: Config, s: State, e: Event, run: RunId)
    requires Inv(cfg, s) && Enabled(s, e)
    requires e == TaskBegin(run) || e == TaskUnwind(run) || (e.CallEnd? && e.run == run)
    ensures run in s.tasks
    ensures Work(Apply(cfg, s, e), s.tasks[run].request.group) < Work(s, s.tasks[run].request.group)
  {
    assert RunOk(cfg, run, View(s, run));
    BeginMoves(s, run);
    UnwindMoves(s, run);
    if e.TaskBegin? {
      TaskStepWork(cfg, s, BeginTask(s, run), run, FirstCall);
    } else if e.TaskUnwind? {
      TaskStepWork(cfg, s, UnwindTask(s, run), run, Unwound);
    } else {
      CallEndDecreases(cfg, s, run, e.outcome);
    }
  }

  /** Main result: every step of a group's worker or task strictly decreases what is left to do for the group. */
  lemma OwnStepDecreases(cfg: Config, s: State, e: Event, group: string)
    requires Inv(cfg, s) && Enabled(s, e) && StepOf(s, e) == Some(group)
    ensures Work(Apply(cfg, s, e), group) < Work(s, group)
  {
    match e
    case WorkerTurn(_) => TurnDecreases(cfg, s, group);
    case WorkerResume(_) => ResumeDecreases(cfg, s, group);
    case TaskBegin(run) => TaskEventDecreases(cfg, s, e, run);
    case CallEnd(run, _) => TaskEventDecreases(cfg, s, e, run);
    case TaskUnwind(run) => TaskEventDecreases(cfg, s, e, run);
  }

  // ---- other groups are not held up -----------------------------------

  /** Nothing `Work` measures about the group has changed. */
  ghost predicate Kept(s: State, t: State, group: string) {
    && ViewGroup(t, group) == ViewGroup(s, group)
    && (group in s.workers && s.workers[group].Awaiting? && s.workers[group].run in s.tasks ==>
          && s.workers[group].run in t.tasks
          && t.tasks[s.workers[group].run].phase == s.tasks[s.workers[group].run].phase)
  }

  lemma KeptWork(cfg: Config, s: State, t: State, group: string)
    requires Inv(cfg, s) && Kept(s, t, group)
    ensures Work(t, group) == Work(s, group)
  {
  }

  lemma PopHeadKept(cfg: Config, s: State, group: string, g: string)
    requires Inv(cfg, s) && At(s.queues, group) != [] && g != group
    ensures Kept(s, PopHead(cfg, s, group), g)
  {
    var entry := At(s.queues, group)[0];
    HeadIsNext(cfg, s, group);
    QueueEntries(cfg, s, group, 0);
    assert RunOk(cfg, entry.run, View(s, entry.run));
    var t := LogPop(s, entry, group, PlaceFor(cfg, s, entry));
    assert ViewGroup(t, g) == ViewGroup(s, g) && t.tasks == s.tasks;
    if PlaceFor(cfg, s, entry) != Skipped && PlaceFor(cfg, s, entry) != Dropped {
      match cfg.policy(entry.request)
      case Raised(message) => RejectKept(cfg, t, entry, "unknown", entry.request.slot, message, g);
      case Selected(backend) =>
        if backend in cfg.backends {
          StartKept(cfg, t, entry, backend, g);
        } else {
          RejectKept(cfg, t, entry, backend, "main", "unknown execution backend: " + backend, g);
        }
    }
  }

  lemma RejectKept(cfg: Config, s: State, entry: Entry, backend: string, slot: string, error: string, g: string)
    ensures var t := RejectEntry(cfg, s, entry, backend, slot, error);
            ViewGroup(t, g) == ViewGroup(s, g) && t.tasks == s.tasks
  {
  }

  lemma StartKept(cfg: Config, s: State, entry: Entry, backend: string, g: string)
    requires g != entry.request.group
    ensures var t := StartEntry(cfg, s, entry, backend);
            && ViewGroup(t, g) == ViewGroup(s, g)
            && (forall run | run in s.tasks && run != entry.run :: run in t.tasks && t.tasks[run] == s.tasks[run])
  {
  }

  lemma {:induction false} TurnKept(cfg: Config, s: State, group: string, g: string)
    requires Inv(cfg, s) && group in s.workers && s.workers[group].Ready? && g != group
    ensures Kept(s, Turn(cfg, s, group), g)
    decreases |At(s.queues, group)|
  {
    if At(s.queues, group) != [] {
      var t := PopHead(cfg, s, group);
      PopHeadShortens(cfg, s, group);
      PopHeadInv(cfg, s, group);
      PopHeadKeepsWorker(cfg, s, group);
      PopHeadKept(cfg, s, group, g);
      if t.workers[group].Ready? {
        TurnKept(cfg, t, group, g);
        KeptTransitive(cfg, s, t, Turn(cfg, t, group), g);
      }
    }
  }

  lemma KeptTransitive(cfg: Config, a: State, b: State, c: State, g: string)
    requires Inv(cfg, a) && Kept(a, b, g) && Kept(b, c, g)
    ensures Kept(a, c, g)
  {
  }

  lemma StoreKept(max: nat, s: State, result: Result, g: string)
    ensures Kept(s, StoreTerminal(max, s, result), g)
  {
  }

  lemma ReleaseKept(s: State, run: RunId, group: string, g: string)
    requires WorkersOk(s.past.known, s.tasks, s.workers) && g != group
    requires run in s.past.known && s.past.known[run].request.group == group
    ensures Kept(s, Release(s, run, group), g)
  {
  }

  lemma FinishKept(cfg: Config, s: State, group: string, g: string)
    requires Inv(cfg, s) && Enabled(s, WorkerResume(group)) && g != group
    ensures Kept(s, FinishRun(cfg, s, group), g)
  {
    var run := s.workers[group].run;
    var t := Release(s, run, group);
    ReleaseKept(s, run, group, g);
    if run !in s.cancelled && s.tasks[run].phase.Finished? {
      StoreKept(cfg.maxCompleted, t, s.tasks[run].phase.result, g);
      KeptTransitive(cfg, s, t, FinishRun(cfg, s, group), g);
    }
  }

  lemma CancelKept(cfg: Config, s: State, run: RunId, g: string)
    requires Inv(cfg, s)
    ensures Kept(s, Cancel(cfg, s, run), g)
  {
    if CanCancel(s, run) {
      var request := s.requests[run];
      var backend := SafeSelect(cfg, request);
      var t := AfterPeek(cfg, s, request, backend);
      assert Kept(s, t, g);
      if s.statuses[run] == Queued {
        StoreKept(cfg.maxCompleted, t,
                  PlainResult(run, request, backend, Peek(cfg, s, request, backend).sessionId, Cancelled, None), g);
        KeptTransitive(cfg, s, t, CancelQueued(cfg, s, run), g);
      } else {
        assert Kept(s, MarkForCancel(t, run), g);
        StoreKept(cfg.maxCompleted, MarkForCancel(t, run), CancelResult(cfg, s, run), g);
        KeptTransitive(cfg, s, MarkForCancel(t, run), CancelRunning(cfg, s, run), g);
      }
    }
  }

  lemma TaskMoveKept(cfg: Config, s: State, t: State, run: RunId, phase: Phase, g: string)
    requires Inv(cfg, s) && PhaseMove(s, t, run, phase) && g != s.tasks[run].request.group
    ensures Kept(s, t, g)
  {
    assert RunOk(cfg, run, View(s, run));
    PhaseMoveTouches(s, t, run, phase, g);
  }

  lemma CallEndKept(cfg: Config, s: State, run: RunId, outcome: Outcome, g: string)
    requires Inv(cfg, s) && Enabled(s, CallEnd(run, outcome)) && g != s.tasks[run].request.group
    ensures Kept(s, EndCall(cfg, s, run, outcome), g)
  {
    var phase := CallEndMoves(cfg, s, run, outcome);
    TaskMoveKept(cfg, s, EndCall(cfg, s, run, outcome), run, phase, g);
  }

  lemma TaskEventKept(cfg: Config, s: State, e: Event, run: RunId, g: string)
    requires Inv(cfg, s) && Enabled(s, e) && run in s.tasks && g != s.tasks[run].request.group
    requires e == TaskBegin(run) || e == TaskUnwind(run) || (e.CallEnd? && e.run == run)
    ensures Kept(s, Apply(cfg, s, e), g)
  {
    assert RunOk(cfg, run, View(s, run));
    BeginMoves(s, run);
    UnwindMoves(s, run);
    if e.TaskBegin? {
      TaskMoveKept(cfg, s, BeginTask(s, run), run, FirstCall, g);
    } else if e.TaskUnwind? {
      TaskMoveKept(cfg, s, UnwindTask(s, run), run, Unwound, g);
    } else {
      CallEndKept(cfg, s, run, e.outcome, g);
    }
  }

  lemma ResumeKept(cfg: Config, s: State, group: string, g: string)
    requires Inv(cfg, s) && Enabled(s, WorkerResume(group)) && g != group
    ensures Kept(s, Apply(cfg, s, WorkerResume(group)), g)
  {
    var t := FinishRun(cfg, s, group);
    FinishInv(cfg, s, group);
    FinishKept(cfg, s, group, g);
    TurnKept(cfg, t, group, g);
    KeptTransitive(cfg, s, t, Turn(cfg, t, group), g);
  }

  lemma SubmitKept(s: State, run: RunId, request: Request, g: string)
    requires request.group != g
    ensures Kept(s, Submit(s, run, request), g)
  {
  }

  lemma AbandonKept(s: State, run: RunId, g: string)
    ensures Kept(s, Abandon(s, run), g)
  {
  }

  lemma OtherStepsKept(cfg: Config, s: State, e: Event, g: string)
    requires Inv(cfg, s) && Enabled(s, e) && StepOf(s, e) != Some(g)
    requires e.SubmitEvent? ==> e.request.group != g
    ensures Kept(s, Apply(cfg, s, e), g)
  {
    match e
    case SubmitEvent(run, request) => SubmitKept(s, run, request, g);
    case WorkerTurn(group) => TurnKept(cfg, s, group, g);
    case WorkerResume(group) => ResumeKept(cfg, s, group, g);
    case CancelEvent(run) => CancelKept(cfg, s, run, g);
    case WaiterCancelled(run) => AbandonKept(s, run, g);
    case TaskBegin(run) => TaskEventKept(cfg, s, e, run, g);
    case CallEnd(run, _) => TaskEventKept(cfg, s, e, run, g);
    case TaskUnwind(run) => TaskEventKept(cfg, s, e, run, g);
  }

  /**
   Main result: no other step, of another group or from outside, adds to a
   group's work, except a submission to it.
   */
  lemma OtherStepsKeepWork(cfg: Config, s: State, e: Event, g: string)
    requires Inv(cfg, s) && Enabled(s, e) && StepOf(s, e) != Some(g)
    requires e.SubmitEvent? ==> e.request.group != g
    ensures Work(Apply(cfg, s, e), g) == Work(s, g)
  {
    OtherStepsKept(cfg, s, e, g);
    KeptWork(cfg, s, Apply(cfg, s, e), g);
  }

  /** How many of the events from i up to j are steps of the group. */
  function StepsTaken(states: seq<State>, events: seq<Event>, group: string, i: nat, j: nat): nat
    requires i <= j <= |events| < |states|
    decreases j
  {
    if i == j then 0
    else
      StepsTaken(states, events, group, i, j - 1)
      + (if StepOf(states[j - 1], events[j - 1]) == Some(group) then 1 else 0)
  }

  /**
   Main result: while nothing is submitted to a group, its worker and tasks
   take at most as many steps as there is work, whatever the other groups,
   cancellations and cancelled waiters do in between.
   */
  lemma {:induction false} WorkRunsOut(cfg: Config, states: seq<State>, events: seq<Event>, group: string, i: nat,
                                       j: nat)
    requires IsRun(cfg, states, events) && i <= j <= |events|
    requires forall k | i <= k < j :: events[k].SubmitEvent? ==> events[k].request.group != group
    ensures StepsTaken(states, events, group, i, j) + Work(states[j], group) <= Work(states[i], group)
    decreases j
  {
    if i < j {
      WorkRunsOut(cfg, states, events, group, i, j - 1);
      RunInv(cfg, states, events, j - 1);
      assert Enabled(states[j - 1], events[j - 1]) && states[j - 1 + 1] == Apply(cfg, states[j - 1], events[j - 1]);
      if StepOf(states[j - 1], events[j - 1]) == Some(group) {
        OwnStepDecreases(cfg, states[j - 1], events[j - 1], group);
      } else {
        OtherStepsKeepWork(cfg, states[j - 1], events[j - 1], group);
      }
    }
  }

  // ---- when no work is left -------------------------------------------

  /** With no work left a group has no worker, task or pending cancellation, and only a dropped run can be left. */
  lemma IdleGroup(cfg: Config, s: State, group: string, run: RunId)
    requires Inv(cfg, s) && Work(s, group) == 0
    requires run in s.past.known && s.past.known[run].request.group == group
    ensures group !in s.workers && At(s.queues, group) == []
    ensures run !in s.tasks && run !in s.cancelled && run !in s.sessionIds && run !in s.runningBackends
    ensures StageOf(s, run).Ended? <==> !(PlaceOf(s, run) == Dropped && run in s.requests)
    ensures !StageOf(s, run).Ended? ==> run in s.past.abandoned && Lookup(s.statuses, run) == Some(Queued)
  {
    assert GroupOk(ViewGroup(s, group)) && RunOk(cfg, run, View(s, run));
    GroupPlaces(cfg, s, run);
    assert ViewGroup(s, group).queue == At(s.queues, group);
  }
}
