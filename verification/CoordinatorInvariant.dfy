/**
 What every step of the coordinator keeps: the dictionaries, queues and sets
 stay mutually consistent, and together with the history they account for
 every run ever submitted.

 The invariant looks at the state through a `RunView` per run and a
 `GroupView` per group, so that a step only has to be checked against the run
 and the group it touches.
 */
module CoordinatorInvariant {
  import opened Wrappers
  import opened Execution
  import opened WorkspaceLifecycle
  import opened CoordinatorSteps

  // ---- views ----------------------------------------------------------

  function Lookup<K, V>(m: map<K, V>, k: K): Option<V> {
    if k in m then Some(m[k]) else None
  }

  /** Everything the coordinator and the history hold about one run. */
  datatype RunView = RunView(
    known: Option<Known>, listed: bool, place: Place, awaited: bool,
    live: Option<Request>, future: Option<Future>, status: Option<Status>, shown: Option<Snapshot>,
    task: Option<ExecTask>, backend: Option<string>, sessionId: Option<string>, cancelled: bool,
    final: Option<Result>, delivered: Option<Result>, abandoned: bool, calls: seq<string>)

  function PlaceOf(s: State, run: RunId): Place {
    if run !in s.past.known then Waiting else
      var known := s.past.known[run];
      var popped := At(s.past.popped, known.request.group);
      if known.index < |popped| then popped[known.index].place else Waiting
  }

  function FinalOf(s: State, run: RunId): Option<Result> {
    if run in s.past.finishedAt && s.past.finishedAt[run] < |s.past.terminals|
    then Some(s.past.terminals[s.past.finishedAt[run]]) else None
  }

  predicate Listed(s: State, run: RunId) {
    run in s.past.known &&
    var known := s.past.known[run];
    var submitted := At(s.past.submitted, known.request.group);
    known.index < |submitted| && submitted[known.index] == Entry(run, known.request)
  }

  predicate Awaited(s: State, run: RunId) {
    && run in s.past.known
    && s.past.known[run].request.group in s.workers
    && s.workers[s.past.known[run].request.group] == Awaiting(run)
  }

  /** A status is only looked up while the run is live; what the tables show afterwards belongs to the cache. */
  function View(s: State, run: RunId): RunView {
    var live := run in s.requests;
    RunView(
      Lookup(s.past.known, run), Listed(s, run), PlaceOf(s, run), Awaited(s, run),
      Lookup(s.requests, run), Lookup(s.futures, run),
      if live then Lookup(s.statuses, run) else None,
      if live then Lookup(s.snapshots, run) else None,
      Lookup(s.tasks, run), Lookup(s.runningBackends, run), Lookup(s.sessionIds, run), run in s.cancelled,
      FinalOf(s, run), Lookup(s.past.delivered, run), run in s.past.abandoned, At(s.past.calls, run))
  }

  datatype GroupView = GroupView(submitted: seq<Entry>, popped: seq<Pop>, queue: seq<Entry>, worker: Option<Worker>)

  function ViewGroup(s: State, group: string): GroupView {
    GroupView(At(s.past.submitted, group), At(s.past.popped, group), At(s.queues, group), Lookup(s.workers, group))
  }

  // ---- the invariant --------------------------------------------------

  /** Two snapshots that differ in their recovery marks only. */
  predicate SameFace(a: Snapshot, b: Snapshot) {
    b == a.(recoveryAttempted := b.recoveryAttempted, recoveryReason := b.recoveryReason,
            recoverySucceeded := b.recoverySucceeded)
  }

  /** The snapshot of a live run: as submitted, with the backend and the first session id once it has started. */
  predicate ShowsLive(snapshot: Snapshot, request: Request, status: Status, task: Option<ExecTask>) {
    && snapshot.request == request && snapshot.status == status && snapshot.slot == request.slot
    && snapshot.finalOutput == None && snapshot.error == None && snapshot.timeoutMs == None
    && snapshot.backend == (if task.Some? then Some(task.value.backend) else None)
    && snapshot.sessionId == (if task.Some? then Some(task.value.sessionId) else None)
  }

  /** The snapshot of an ended run shows its result. */
  predicate ShowsResult(snapshot: Snapshot, result: Result) {
    && snapshot.status == result.status && snapshot.slot == result.slot
    && snapshot.backend == Some(result.backend) && snapshot.sessionId == Some(result.sessionId)
    && snapshot.finalOutput == result.finalOutput && snapshot.error == result.error
    && snapshot.timeoutMs == result.timeoutMs
  }

  /** A known run is live, with a future and a live status, or has exactly one terminal result. */
  predicate LiveOk(run: RunId, v: RunView)
    requires v.known.Some?
  {
    && (v.live.Some? <==> v.final.None?)
    && (v.future.Some? <==> v.live.Some?)
    && (v.live.Some? ==>
          && v.known == Some(Known(v.live.value, v.known.value.index))
          && (v.future.value.Abandoned? <==> v.abandoned)
          && (v.status == Some(Queued) || v.status == Some(Running))
          && v.shown.Some? && ShowsLive(v.shown.value, v.live.value, v.status.value, v.task))
    && (v.final.Some? ==>
          && v.final.value.run == run && IsTerminal(v.final.value.status)
          && (v.delivered.Some? || v.abandoned))
    && (v.delivered.Some? ==> v.delivered == v.final && !v.abandoned)
  }

  predicate FinallyCancelled(v: RunView) {
    v.final.Some? ==> v.final.value.status == Cancelled
  }

  /** The policy names a registered backend for the request. */
  predicate Selectable(cfg: Config, request: Request) {
    cfg.policy(request).Selected? && cfg.policy(request).backend in cfg.backends
  }

  /** How a run's place in its group, its status and its task fit together. */
  predicate PlaceOk(cfg: Config, v: RunView)
    requires v.known.Some?
  {
    match v.place
    case Waiting => v.task.None? && (v.live.Some? ==> v.status == Some(Queued)) && FinallyCancelled(v)
    case Skipped => v.task.None? && v.final.Some? && FinallyCancelled(v)
    case Dropped => v.task.None? && v.abandoned && (v.live.Some? ==> v.status == Some(Queued)) && FinallyCancelled(v)
    case Rejected =>
      && v.task.None? && v.final.Some? && v.final.value.status == Failed
      && !Selectable(cfg, v.known.value.request)
    case Started =>
      && Selectable(cfg, v.known.value.request)
      && (v.live.Some? ==> v.task.Some? && v.status == Some(Running) && !v.cancelled)
      && (v.task.Some? && v.final.Some? ==> v.cancelled && FinallyCancelled(v))
  }

  /** The id of a task's last call, or the one it is going to use. */
  function LastId(first: string, calls: seq<string>): string {
    if calls == [] then first else calls[|calls| - 1]
  }

  /** An execution task belongs to a started run its group's worker is waiting for. */
  predicate TaskOk(cfg: Config, run: RunId, v: RunView)
    requires v.known.Some?
  {
    && (v.backend.Some? <==> v.task.Some?)
    && (v.sessionId.Some? <==> v.task.Some?)
    && (v.cancelled ==> v.task.Some?)
    && (v.task.Some? ==>
          var task := v.task.value;
          && v.place == Started && v.awaited
          && task.request == v.known.value.request
          && cfg.policy(task.request) == Selected(task.backend) && task.backend in cfg.backends
          && v.backend.value == task.backend
          && v.sessionId.value == LastId(task.sessionId, v.calls)
          && task.key == KeyOf(task.request)
          && (task.cancelRequested ==> v.cancelled)
          && (v.cancelled ==> task.cancelRequested || Done(task))
          && (task.phase.Unwound? ==> task.cancelRequested)
          && (task.phase.Finished? ==> task.phase.result.run == run && IsTerminal(task.phase.result.status)))
  }

  /** A run calls its backend at most twice, and twice only as a non-fresh run on the session-keeping backend. */
  predicate CallsOk(cfg: Config, v: RunView)
    requires v.known.Some?
  {
    && |v.calls| <= 2
    && (v.place != Started ==> v.calls == [])
    && (|v.calls| == 2 ==>
          && !v.known.value.request.freshSession
          && cfg.policy(v.known.value.request) == Selected(OPENAI))
    && (v.task.Some? ==>
          match v.task.value.phase
          case Scheduled => v.calls == []
          case FirstCall => v.calls == [v.task.value.sessionId]
          case SecondCall(retryId) => v.calls == [v.task.value.sessionId, retryId]
          case _ => true)
  }

  predicate RunOk(cfg: Config, run: RunId, v: RunView)
  {
    if v.known.None? then
      && v.live.None? && v.future.None? && v.task.None? && v.backend.None? && v.sessionId.None?
      && v.final.None? && v.delivered.None? && !v.abandoned && !v.cancelled && v.calls == []
    else
      v.listed && LiveOk(run, v) && PlaceOk(cfg, v) && TaskOk(cfg, run, v) && CallsOk(cfg, v)
  }

  /** A group's queue is exactly the unpopped rest of its submissions, and a nonempty queue has a worker. */
  predicate GroupOk(v: GroupView) {
    && |v.popped| <= |v.submitted|
    && v.queue == v.submitted[|v.popped|..]
    && (forall i | 0 <= i < |v.popped| :: v.popped[i].entry == v.submitted[i] && v.popped[i].place != Waiting)
    && (v.queue != [] ==> v.worker.Some?)
  }

  /** Every submission is known under its position. */
  ghost predicate SubmittedOk(known: map<RunId, Known>, submitted: map<string, seq<Entry>>) {
    forall group, i {:trigger At(submitted, group)[i]} | 0 <= i < |At(submitted, group)| ::
      var entry := At(submitted, group)[i];
      && entry.run in known
      && known[entry.run] == Known(entry.request, i)
      && entry.request.group == group
  }

  /** A worker only ever awaits the task of a run of its own group. */
  ghost predicate WorkersOk(known: map<RunId, Known>, tasks: map<RunId, ExecTask>, workers: map<string, Worker>) {
    forall group | group in workers && workers[group].Awaiting? ::
      && workers[group].run in tasks
      && workers[group].run in known
      && known[workers[group].run].request.group == group
  }

  function Min(a: int, b: int): int {
    if a < b then a else b
  }

  /** The completion log is indexed by run id, each id at most once. */
  ghost predicate LogOk(log: seq<Result>, finishedAt: map<RunId, nat>) {
    && (forall i | 0 <= i < |log| :: log[i].run in finishedAt && finishedAt[log[i].run] == i)
    && (forall run | run in finishedAt :: finishedAt[run] < |log| && log[finishedAt[run]].run == run)
  }

  /** The completed cache is the tail of the completion log. */
  ghost predicate OrderOk(max: nat, log: seq<Result>, order: seq<RunId>) {
    && |order| == Min(|log|, max)
    && (forall i | 0 <= i < |order| :: order[i] == log[|log| - |order| + i].run)
  }

  predicate Retained(log: seq<Result>, finishedAt: map<RunId, nat>, order: seq<RunId>, run: RunId) {
    run in finishedAt && finishedAt[run] >= |log| - |order|
  }

  /** Results are exactly the retained ones; statuses and snapshots are exactly the live runs and the retained ones. */
  predicate RowOk(log: seq<Result>, finishedAt: map<RunId, nat>, live: map<RunId, Request>, c: Cache, run: RunId) {
    var retained := Retained(log, finishedAt, c.order, run);
    && (run in c.results <==> retained)
    && (run in c.statuses <==> run in live || retained)
    && (run in c.snapshots <==> run in live || retained)
    && (retained ==>
          && run !in live
          && finishedAt[run] < |log|
          && c.results[run] == log[finishedAt[run]]
          && c.statuses[run] == c.results[run].status
          && ShowsResult(c.snapshots[run], c.results[run]))
  }

  ghost predicate TablesOk(log: seq<Result>, finishedAt: map<RunId, nat>, live: map<RunId, Request>, c: Cache) {
    forall run :: RowOk(log, finishedAt, live, c, run)
  }

  function CacheOf(s: State): Cache {
    Cache(s.order, s.results, s.statuses, s.snapshots)
  }

  ghost predicate CacheOk(max: nat, s: State) {
    && LogOk(s.past.terminals, s.past.finishedAt)
    && OrderOk(max, s.past.terminals, s.order)
    && TablesOk(s.past.terminals, s.past.finishedAt, s.requests, CacheOf(s))
  }

  ghost predicate Inv(cfg: Config, s: State) {
    && (forall run {:trigger View(s, run)} :: RunOk(cfg, run, View(s, run)))
    && (forall group {:trigger ViewGroup(s, group)} :: GroupOk(ViewGroup(s, group)))
    && SubmittedOk(s.past.known, s.past.submitted)
    && WorkersOk(s.past.known, s.tasks, s.workers)
    && CacheOk(cfg.maxCompleted, s)
  }

  lemma InitialInv(cfg: Config)
    ensures Inv(cfg, INITIAL)
  {
  }

  /** The view of a finished run shows its result, because the log is indexed. */
  lemma UnknownNotFinished(cfg: Config, s: State, run: RunId)
    requires Inv(cfg, s)
    ensures run in s.past.finishedAt ==> run in s.past.known && run !in s.requests
  {
    assert RunOk(cfg, run, View(s, run));
  }

  // ---- steps that touch one run ---------------------------------------

  /** Only this run's view changes, and among the groups only this one. */
  ghost predicate Touches(s: State, t: State, run: RunId, group: string) {
    && (forall other {:trigger View(t, other)} | other != run :: View(t, other) == View(s, other))
    && (forall g {:trigger ViewGroup(t, g)} | g != group :: ViewGroup(t, g) == ViewGroup(s, g))
  }

  lemma OneRunStep(cfg: Config, s: State, t: State, run: RunId, group: string)
    requires Inv(cfg, s) && Touches(s, t, run, group)
    requires RunOk(cfg, run, View(t, run)) && GroupOk(ViewGroup(t, group))
    requires SubmittedOk(t.past.known, t.past.submitted)
    requires WorkersOk(t.past.known, t.tasks, t.workers)
    requires CacheOk(cfg.maxCompleted, t)
    ensures Inv(cfg, t)
  {
    forall other ensures RunOk(cfg, other, View(t, other)) {
      assert RunOk(cfg, other, View(s, other));
    }
    forall g ensures GroupOk(ViewGroup(t, g)) {
      assert GroupOk(ViewGroup(s, g));
    }
  }

  lemma AbandonTouches(s: State, run: RunId, group: string)
    ensures Touches(s, Abandon(s, run), run, group)
    ensures ViewGroup(Abandon(s, run), group) == ViewGroup(s, group)
  {
  }

  lemma AbandonInv(cfg: Config, s: State, run: RunId)
    requires Inv(cfg, s) && run in s.futures && s.futures[run].Pending?
    ensures Inv(cfg, Abandon(s, run))
  {
    var t := Abandon(s, run);
    var group := "";
    AbandonTouches(s, run, group);
    assert RunOk(cfg, run, View(s, run)) && GroupOk(ViewGroup(s, group));
    assert View(t, run) == View(s, run).(future := Some(Abandoned), abandoned := true);
    OneRunStep(cfg, s, t, run, group);
  }

  lemma SubmitView(s: State, run: RunId, request: Request, other: RunId)
    requires run !in s.past.known && other != run
    ensures View(Submit(s, run, request), other) == View(s, other)
  {
    var t := Submit(s, run, request);
    assert At(t.past.submitted, request.group) == At(s.past.submitted, request.group) + [Entry(run, request)];
    assert Lookup(t.past.known, other) == Lookup(s.past.known, other);
    assert Listed(t, other) == Listed(s, other) && PlaceOf(t, other) == PlaceOf(s, other);
    assert Awaited(t, other) == Awaited(s, other) && FinalOf(t, other) == FinalOf(s, other);
  }

  lemma SubmitTouches(s: State, run: RunId, request: Request)
    requires run !in s.past.known
    ensures Touches(s, Submit(s, run, request), run, request.group)
  {
    var t := Submit(s, run, request);
    forall other | other != run ensures View(t, other) == View(s, other) {
      SubmitView(s, run, request, other);
    }
  }

  lemma SubmittedGrows(known: map<RunId, Known>, submitted: map<string, seq<Entry>>, run: RunId, request: Request)
    requires SubmittedOk(known, submitted) && run !in known
    ensures var group := request.group;
            SubmittedOk(known[run := Known(request, |At(submitted, group)|)],
                        submitted[group := At(submitted, group) + [Entry(run, request)]])
  {
    var group := request.group;
    var known' := known[run := Known(request, |At(submitted, group)|)];
    var submitted' := submitted[group := At(submitted, group) + [Entry(run, request)]];
    forall g, i | 0 <= i < |At(submitted', g)|
      ensures var entry := At(submitted', g)[i];
              entry.run in known' && known'[entry.run] == Known(entry.request, i) && entry.request.group == g
    {
      if g != group || i < |At(submitted, group)| {
        assert At(submitted', g)[i] == At(submitted, g)[i];
      }
    }
  }

  lemma SubmitLocal(cfg: Config, s: State, run: RunId, request: Request)
    requires RunOk(cfg, run, View(s, run)) && run !in s.past.known
    requires GroupOk(ViewGroup(s, request.group))
    ensures var t := Submit(s, run, request);
            RunOk(cfg, run, View(t, run)) && GroupOk(ViewGroup(t, request.group))
  {
  }

  lemma SubmitCache(max: nat, s: State, run: RunId, request: Request)
    requires CacheOk(max, s) && run !in s.past.finishedAt
    ensures CacheOk(max, Submit(s, run, request))
  {
    var t := Submit(s, run, request);
    forall other ensures RowOk(t.past.terminals, t.past.finishedAt, t.requests, CacheOf(t), other) {
      assert RowOk(s.past.terminals, s.past.finishedAt, s.requests, CacheOf(s), other);
    }
  }

  lemma SubmitTables(s: State, run: RunId, request: Request)
    requires SubmittedOk(s.past.known, s.past.submitted) && WorkersOk(s.past.known, s.tasks, s.workers)
    requires run !in s.past.known
    ensures var t := Submit(s, run, request);
            SubmittedOk(t.past.known, t.past.submitted) && WorkersOk(t.past.known, t.tasks, t.workers)
  {
    SubmittedGrows(s.past.known, s.past.submitted, run, request);
  }

  lemma SubmitInv(cfg: Config, s: State, run: RunId, request: Request)
    requires Inv(cfg, s) && run !in s.past.known
    ensures Inv(cfg, Submit(s, run, request))
  {
    assert RunOk(cfg, run, View(s, run)) && GroupOk(ViewGroup(s, request.group));
    UnknownNotFinished(cfg, s, run);
    SubmitTouches(s, run, request);
    SubmitTables(s, run, request);
    SubmitLocal(cfg, s, run, request);
    SubmitCache(cfg.maxCompleted, s, run, request);
    OneRunStep(cfg, s, Submit(s, run, request), run, request.group);
  }

  // ---- storing a terminal result --------------------------------------

  lemma EvictsAtMostOne(max: nat, c: Cache)
    requires |c.order| <= max + 1
    ensures EvictStale(max, c) ==
            if |c.order| <= max then c
            else Cache(c.order[1..], c.results - {c.order[0]}, c.statuses - {c.order[0]}, c.snapshots - {c.order[0]})
  {
  }

  lemma LogGrows(log: seq<Result>, finishedAt: map<RunId, nat>, result: Result)
    requires LogOk(log, finishedAt) && result.run !in finishedAt
    ensures LogOk(log + [result], finishedAt[result.run := |log|])
  {
  }

  /** `_store_terminal_result` on the four cache fields. */
  function StoreInCache(max: nat, c: Cache, result: Result): Cache {
    EvictStale(max, Cache(c.order + [result.run], c.results[result.run := result],
                          c.statuses[result.run := result.status], MarkTerminal(c.snapshots, result)))
  }

  /** Recording a result and evicting at most one stale run keeps every row of the tables right. */
  lemma StoreKeepsRow(max: nat, log: seq<Result>, finishedAt: map<RunId, nat>, live: map<RunId, Request>, c: Cache,
                      result: Result, run: RunId)
    requires LogOk(log, finishedAt) && OrderOk(max, log, c.order) && TablesOk(log, finishedAt, live, c)
    requires result.run in live && result.run !in finishedAt
    ensures RowOk(log + [result], finishedAt[result.run := |log|], live - {result.run},
                  StoreInCache(max, c, result), run)
    ensures run in live && run != result.run ==>
              && Lookup(StoreInCache(max, c, result).statuses, run) == Lookup(c.statuses, run)
              && Lookup(StoreInCache(max, c, result).snapshots, run) == Lookup(c.snapshots, run)
  {
    var recorded := Cache(c.order + [result.run], c.results[result.run := result],
                          c.statuses[result.run := result.status], MarkTerminal(c.snapshots, result));
    EvictsAtMostOne(max, recorded);
    assert RowOk(log, finishedAt, live, c, run) && RowOk(log, finishedAt, live, c, result.run);
    if |recorded.order| > max && |c.order| > 0 {
      var stale := recorded.order[0];
      assert stale == log[|log| - |c.order|].run && finishedAt[stale] == |log| - |c.order|;
      assert RowOk(log, finishedAt, live, c, stale);
      assert run in finishedAt && finishedAt[run] == finishedAt[stale] ==> run == stale;
    }
  }

  lemma StoreKeepsTables(max: nat, log: seq<Result>, finishedAt: map<RunId, nat>, live: map<RunId, Request>, c: Cache,
                         result: Result)
    requires LogOk(log, finishedAt) && OrderOk(max, log, c.order) && TablesOk(log, finishedAt, live, c)
    requires result.run in live && result.run !in finishedAt
    ensures OrderOk(max, log + [result], StoreInCache(max, c, result).order)
    ensures TablesOk(log + [result], finishedAt[result.run := |log|], live - {result.run},
                     StoreInCache(max, c, result))
  {
    var kept := StoreInCache(max, c, result);
    var log', finishedAt', live' := log + [result], finishedAt[result.run := |log|], live - {result.run};
    forall run ensures RowOk(log', finishedAt', live', kept, run) {
      StoreKeepsRow(max, log, finishedAt, live, c, result, run);
    }
    StoreKeepsOrder(max, log, c, result);
  }

  lemma StoreKeepsOrder(max: nat, log: seq<Result>, c: Cache, result: Result)
    requires OrderOk(max, log, c.order)
    ensures OrderOk(max, log + [result], StoreInCache(max, c, result).order)
  {
    EvictsAtMostOne(max, Cache(c.order + [result.run], c.results[result.run := result],
                               c.statuses[result.run := result.status], MarkTerminal(c.snapshots, result)));
  }

  lemma StoreView(max: nat, s: State, result: Result, other: RunId)
    requires CacheOk(max, s) && result.run in s.requests && result.run !in s.past.finishedAt
    requires other != result.run
    ensures View(StoreTerminal(max, s, result), other) == View(s, other)
  {
    StoreKeepsRow(max, s.past.terminals, s.past.finishedAt, s.requests, CacheOf(s), result, other);
    assert CacheOf(StoreTerminal(max, s, result)) == StoreInCache(max, CacheOf(s), result);
    assert FinalOf(StoreTerminal(max, s, result), other) == FinalOf(s, other);
  }

  /** A run's view once its terminal result is stored. */
  function Stored(v: RunView, result: Result): RunView {
    v.(live := None, future := None, status := None, shown := None, final := Some(result),
       delivered := if v.future == Some(Pending) then Some(result) else v.delivered)
  }

  lemma StoreEffect(max: nat, s: State, result: Result)
    requires CacheOk(max, s) && result.run in s.requests && result.run !in s.past.finishedAt
    ensures var t := StoreTerminal(max, s, result);
            && CacheOk(max, t)
            && (forall other {:trigger View(t, other)} | other != result.run :: View(t, other) == View(s, other))
            && (forall g {:trigger ViewGroup(t, g)} :: ViewGroup(t, g) == ViewGroup(s, g))
            && View(t, result.run) == Stored(View(s, result.run), result)
  {
    var t := StoreTerminal(max, s, result);
    LogGrows(s.past.terminals, s.past.finishedAt, result);
    StoreKeepsTables(max, s.past.terminals, s.past.finishedAt, s.requests, CacheOf(s), result);
    assert CacheOf(t) == StoreInCache(max, CacheOf(s), result);
    forall other | other != result.run ensures View(t, other) == View(s, other) {
      StoreView(max, s, result, other);
    }
    assert FinalOf(t, result.run) == Some(result);
  }

  /** Storing a result for a live run, after changes that touched only that run. */
  lemma StoreStep(cfg: Config, s: State, u: State, result: Result, group: string)
    requires Inv(cfg, s) && Touches(s, u, result.run, group)
    requires result.run in u.requests && result.run !in u.past.finishedAt && CacheOk(cfg.maxCompleted, u)
    requires SubmittedOk(u.past.known, u.past.submitted) && WorkersOk(u.past.known, u.tasks, u.workers)
    requires GroupOk(ViewGroup(u, group))
    requires RunOk(cfg, result.run, Stored(View(u, result.run), result))
    ensures Inv(cfg, StoreTerminal(cfg.maxCompleted, u, result))
  {
    StoreEffect(cfg.maxCompleted, u, result);
    OneRunStep(cfg, s, StoreTerminal(cfg.maxCompleted, u, result), result.run, group);
  }
}
