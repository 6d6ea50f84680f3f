/**
 One terminal session of services/terminal_sessions.py. No lock section of that
 file contains an await, so a section is one atomic step. Output queues and
 reconnect timers are identified by their number within the session.
 */
module TerminalLife {
  import opened Wrappers
  import opened Strings
  import opened OutputHistory

  // ---- state ----------------------------------------------------------

  datatype SessionStatus = Created | Attached | Detached | Closed | Exited

  /** The managed session: its record and the other fields of `_ManagedTerminalSession`. */
  datatype Managed = Managed(
    id: string, group: string, owner: string, status: SessionStatus,
    lastAttachedAt: Option<int>, deadline: Option<int>,
    hasBridge: bool, queue: Option<nat>, timer: Option<nat>, history: History)

  /** An output event without data carries `None`. */
  datatype QueueEvent = Output(data: Option<Text>) | Exit(code: Option<int>) | Error(message: Option<string>)

  /** An output queue: what was put on it, and the part of the session's output made while it was current. */
  datatype OutputQueue = OutputQueue(events: seq<QueueEvent>, from: nat, until: Option<nat>)

  datatype TimerState = Armed | CancelRequested | Fired

  /** `issuedAt` is the session's operation count right after the detach that made the timer. */
  datatype Timer = Timer(deadline: int, state: TimerState, issuedAt: nat)

  /** A handler suspended in persistence, holding the queue it captured. */
  datatype Handler = Handler(queue: Option<nat>, data: Text)

  datatype Notice = Notice(queue: Option<nat>, code: Option<int>)

  /** The bridge's reader: `byAttach` tells which caller awaits its start. */
  datatype Stage = Idle | Starting(byAttach: bool) | Running | Stopped

  /**
   Everything around the managed session: the queues and timers it made, the
   bridge's reader and its suspended handlers, and the log of handled outputs.
   `seeded` tells whether the session was recovered with a truncated history.
   */
  datatype World = World(
    queues: seq<OutputQueue>, timers: seq<Timer>, stage: Stage, closeBegun: bool,
    handler: Option<Handler>, lost: Option<Handler>, notices: seq<Notice>,
    log: seq<Option<Text>>, seeded: bool, ops: nat)

  /** `indexed` says whether the service's maps still hold the session. */
  datatype Life = Life(session: Managed, indexed: bool, world: World)

  /** The service's constants: the history cap and the reconnect timeout. */
  datatype Limits = Limits(historyMax: int, reconnect: int)

  // ---- pieces ---------------------------------------------------------

  function CancelTimer(timers: seq<Timer>, timer: Option<nat>): seq<Timer> {
    if timer.Some? && timer.value < |timers| && timers[timer.value].state.Armed?
    then timers[timer.value := timers[timer.value].(state := CancelRequested)]
    else timers
  }

  /** The queue stops being the session's current one. */
  function Retire(queues: seq<OutputQueue>, queue: Option<nat>, logged: nat): seq<OutputQueue> {
    if queue.Some? && queue.value < |queues|
    then queues[queue.value := queues[queue.value].(until := Some(logged))]
    else queues
  }

  function Put(queues: seq<OutputQueue>, queue: Option<nat>, event: QueueEvent): seq<OutputQueue> {
    if queue.Some? && queue.value < |queues|
    then queues[queue.value := queues[queue.value].(events := queues[queue.value].events + [event])]
    else queues
  }

  /** The events that `attach_session` puts on a new queue: one per retained chunk. */
  function Replay(chunks: seq<Text>): seq<QueueEvent> {
    seq(|chunks|, i requires 0 <= i < |chunks| => Output(Some(chunks[i])))
  }

  /** The session's current queue, if any, is dropped and its reconnect timer cancelled. */
  function Disconnect(l: Life, status: SessionStatus, deadline: Option<int>): Life {
    var s, w := l.session, l.world;
    l.(session := s.(status := status, deadline := deadline, queue := None, timer := None),
       world := w.(queues := Retire(w.queues, s.queue, |w.log|), timers := CancelTimer(w.timers, s.timer),
                   ops := w.ops + 1))
  }

  // ---- steps of the service -------------------------------------------

  function NewSession(id: string, group: string, owner: string): Managed {
    Managed(id, group, owner, Created, None, None, true, None, None, History([], 0, false))
  }

  const QUIET_WORLD := World([], [], Idle, false, None, None, [], [], false, 0)

  function NewLife(id: string, group: string, owner: string): Life {
    Life(NewSession(id, group, owner), true, QUIET_WORLD.(stage := Starting(false)))
  }

  /** A session found active on disk: detached, without a deadline, and its history one chunk. */
  function RecoveredLife(max: int, found: Managed, output: Text, truncated: bool): Life {
    var history := Append(max, History([], 0, truncated), output);
    Life(NewSession(found.id, found.group, found.owner).(
           status := Detached, lastAttachedAt := found.lastAttachedAt, hasBridge := false, history := history),
         true,
         QUIET_WORLD.(log := [Some(output)], seeded := truncated))
  }

  function Attach(l: Life, now: int): Life {
    var s, w := l.session, l.world;
    var queue := OutputQueue(Replay(s.history.chunks), |w.log|, None);
    l.(session := s.(status := Attached, lastAttachedAt := Some(now), deadline := None, hasBridge := true,
                     queue := Some(|w.queues|), timer := None),
       world := w.(queues := Retire(w.queues, s.queue, |w.log|) + [queue],
                   timers := CancelTimer(w.timers, s.timer),
                   stage := if s.hasBridge then w.stage else Starting(true),
                   ops := w.ops + 1))
  }

  function Detach(limits: Limits, l: Life, now: int): Life {
    var deadline := now + limits.reconnect;
    var t := Disconnect(l, Detached, Some(deadline));
    t.(session := t.session.(timer := Some(|t.world.timers|)),
       world := t.world.(timers := t.world.timers + [Timer(deadline, Armed, t.world.ops)]))
  }

  function Close(l: Life): Life {
    var t := Disconnect(l, Closed, None);
    t.(world := t.world.(closeBegun := t.world.closeBegun || l.session.hasBridge))
  }

  /** The condition under which a waking reconnect timer closes its session. */
  predicate Expires(l: Life, timer: nat)
    requires timer < |l.world.timers|
  {
    l.indexed && l.session.status == Detached && l.session.deadline == Some(l.world.timers[timer].deadline)
  }

  function Expire(l: Life, timer: nat): Life
    requires timer < |l.world.timers|
  {
    var w := l.world.(timers := l.world.timers[timer := l.world.timers[timer].(state := Fired)]);
    if !Expires(l, timer) then l.(world := w) else
      l.(session := l.session.(status := Closed, deadline := None),
         world := w.(ops := w.ops + 1, closeBegun := w.closeBegun || l.session.hasBridge))
  }

  /** The maps forget the session; whoever still holds its queue or bridge keeps it. */
  function Drop(l: Life): Life {
    l.(session := l.session.(timer := None), indexed := false,
       world := l.world.(timers := CancelTimer(l.world.timers, l.session.timer)))
  }

  // ---- steps of the bridge --------------------------------------------

  function BridgeStarted(l: Life): Life {
    l.(world := l.world.(stage := Running))
  }

  /** A failed start is handled by the attach that caused it; a failed create handles nothing. */
  function StartFailed(l: Life): Life {
    var stopped := l.(world := l.world.(stage := Stopped));
    if l.indexed && l.world.stage == Starting(true) then
      var s, w := l.session, stopped.world;
      l.(session := s.(status := Closed, deadline := None, hasBridge := false, queue := None),
         world := w.(queues := Retire(w.queues, s.queue, |w.log|), ops := w.ops + 1))
    else stopped
  }

  /** The first half of `_handle_bridge_event` for an output: record it and capture the queue. */
  function HearOutput(max: int, l: Life, data: Option<Text>): Life {
    if !l.indexed then l else
      var s, w := l.session, l.world;
      match data
      case None => l.(world := w.(log := w.log + [None], queues := Put(w.queues, s.queue, Output(None))))
      case Some(text) =>
        l.(session := s.(history := Append(max, s.history, text)),
           world := w.(log := w.log + [data], handler := Some(Handler(s.queue, text))))
  }

  /** The second half, after persistence. */
  function PutOutput(l: Life): Life
    requires l.world.handler.Some?
  {
    var h := l.world.handler.value;
    l.(world := l.world.(queues := Put(l.world.queues, h.queue, Output(Some(h.data))), handler := None))
  }

  /** Closing a bridge cancels its reader, together with the handlers the reader is suspended in. */
  function ReaderCancelled(l: Life): Life {
    l.(world := l.world.(
      stage := Stopped, handler := None, notices := [],
      lost := if l.world.handler.Some? then l.world.handler else l.world.lost))
  }

  function HearExit(l: Life, code: Option<int>): Life {
    if !l.indexed then l else
      var s, w := l.session, l.world;
      l.(session := s.(status := Exited, deadline := None, timer := None),
         world := w.(timers := CancelTimer(w.timers, s.timer), notices := w.notices + [Notice(s.queue, code)],
                     ops := w.ops + 1))
  }

  function PutExit(l: Life, i: nat): Life
    requires i < |l.world.notices|
  {
    var notice := l.world.notices[i];
    l.(world := l.world.(queues := Put(l.world.queues, notice.queue, Exit(notice.code)),
                         notices := l.world.notices[..i] + l.world.notices[i + 1..]))
  }

  function HearError(l: Life, message: Option<string>): Life {
    if !l.indexed then l else
      l.(world := l.world.(queues := Put(l.world.queues, l.session.queue, Error(message))))
  }

  // ---- all steps of one session ---------------------------------------

  datatype Move =
    | DoAttach(now: int)
    | DoDetach(now: int)
    | DoClose
    | DoExpire(timer: nat)
    | DoDrop
    | DoBridgeStarted
    | DoStartFailed
    | DoHearOutput(data: Option<Text>)
    | DoPutOutput
    | DoReaderCancelled
    | DoHearExit(code: Option<int>)
    | DoPutExit(i: nat)
    | DoHearError(message: Option<string>)

  /**
   When a move is possible. A reader awaits each output's handler before it
   reads on. A cancelled timer normally never wakes; it may do so here, so
   that nothing rests on when a cancellation takes effect.
   */
  predicate Possible(l: Life, m: Move) {
    match m
    case DoAttach(_) => l.indexed
    case DoDetach(_) => l.indexed
    case DoClose => l.indexed
    case DoExpire(timer) => timer < |l.world.timers| && !l.world.timers[timer].state.Fired?
    case DoDrop => l.indexed && (l.session.status == Closed || l.session.status == Exited)
    case DoBridgeStarted => l.world.stage.Starting?
    case DoStartFailed => l.world.stage.Starting?
    case DoHearOutput(_) => l.world.stage == Running && l.world.handler == None
    case DoPutOutput => l.world.handler.Some?
    case DoReaderCancelled => l.world.closeBegun && l.world.stage == Running
    case DoHearExit(_) => true
    case DoPutExit(i) => i < |l.world.notices|
    case DoHearError(_) => true
  }

  function Step(limits: Limits, l: Life, m: Move): Life
    requires Possible(l, m)
  {
    match m
    case DoAttach(now) => Attach(l, now)
    case DoDetach(now) => Detach(limits, l, now)
    case DoClose => Close(l)
    case DoExpire(timer) => Expire(l, timer)
    case DoDrop => Drop(l)
    case DoBridgeStarted => BridgeStarted(l)
    case DoStartFailed => StartFailed(l)
    case DoHearOutput(data) => HearOutput(limits.historyMax, l, data)
    case DoPutOutput => PutOutput(l)
    case DoReaderCancelled => ReaderCancelled(l)
    case DoHearExit(code) => HearExit(l, code)
    case DoPutExit(i) => PutExit(l, i)
    case DoHearError(message) => HearError(l, message)
  }

  // ---- what is kept ---------------------------------------------------

  /** The three status implications. */
  predicate ShapeOk(s: Managed) {
    && (s.deadline.Some? ==> s.status == Detached)
    && (s.status == Attached ==> s.queue.Some?)
    && (s.queue.Some? ==> s.status == Attached || s.status == Exited)
  }

  predicate QueueOk(q: OutputQueue, i: nat, current: Option<nat>, logged: nat) {
    && q.from <= logged
    && (q.until.Some? ==> q.from <= q.until.value <= logged)
    && (q.until.None? <==> current == Some(i))
  }

  predicate QueuesOk(queues: seq<OutputQueue>, current: Option<nat>, logged: nat) {
    && (current.Some? ==> current.value < |queues|)
    && (forall i {:trigger queues[i]} | 0 <= i < |queues| :: QueueOk(queues[i], i, current, logged))
  }

  /** Only the session's own timer is armed, and a deadline has an armed timer that was issued for it. */
  predicate TimersOk(timers: seq<Timer>, current: Option<nat>, deadline: Option<int>, indexed: bool, ops: nat) {
    && (forall k | 0 <= k < |timers| :: timers[k].issuedAt <= ops)
    && (forall k | 0 <= k < |timers| :: timers[k].state.Armed? ==> indexed && current == Some(k))
    && (current.Some? ==> current.value < |timers|)
    && (deadline.Some? ==>
          && indexed && current.Some?
          && timers[current.value] == Timer(deadline.value, Armed, ops))
  }

  /** A reader needs a bridge; it can only be lost to a close, and then it has stopped for good. */
  predicate ReaderOk(w: World, hasBridge: bool, indexed: bool) {
    && (w.stage == Running || w.stage.Starting? ==> hasBridge)
    && (w.stage == Idle ==> !hasBridge)
    && (w.handler.Some? ==> w.stage == Running)
    && (w.lost.Some? ==> w.stage == Stopped && hasBridge && w.closeBegun)
    && (w.handler.Some? && w.handler.value.queue.Some? ==> w.handler.value.queue.value < |w.queues|)
    && (w.lost.Some? && w.lost.value.queue.Some? ==> w.lost.value.queue.value < |w.queues|)
    && (forall i :: 0 <= i < |w.notices| && w.notices[i].queue.Some? ==> w.notices[i].queue.value < |w.queues|)
  }

  /** The texts among the first outputs of the log. */
  function Texts(log: seq<Option<Text>>): seq<Text> {
    if log == [] then []
    else
      var init, last := Texts(log[..|log| - 1]), log[|log| - 1];
      if last.Some? then init + [last.value] else init
  }

  function HistoryAt(max: int, log: seq<Option<Text>>, seeded: bool): History {
    HistoryOf(max, Texts(log), seeded)
  }

  function OutputsOf(events: seq<QueueEvent>): seq<Option<Text>> {
    if events == [] then []
    else
      var init, last := OutputsOf(events[..|events| - 1]), events[|events| - 1];
      if last.Output? then init + [last.data] else init
  }

  function Wrapped(chunks: seq<Text>): seq<Option<Text>> {
    seq(|chunks|, i requires 0 <= i < |chunks| => Some(chunks[i]))
  }

  /** What a queue is to receive: the history retained at the attach, then the outputs made while it was current. */
  function Due(max: int, q: OutputQueue, log: seq<Option<Text>>, seeded: bool): seq<Option<Text>>
    requires q.from <= |log| && (q.until.Some? ==> q.from <= q.until.value <= |log|)
  {
    Wrapped(HistoryAt(max, log[..q.from], seeded).chunks)
    + log[q.from..if q.until.Some? then q.until.value else |log|]
  }

  function HeldFor(h: Option<Handler>, i: nat): seq<Option<Text>> {
    if h.Some? && h.value.queue == Some(i) then [Some(h.value.data)] else []
  }

  /** Received, held by a suspended handler or lost with a cancelled one: together, in order, what is due. */
  predicate Delivered(max: int, q: OutputQueue, i: nat, w: World)
    requires q.from <= |w.log| && (q.until.Some? ==> q.from <= q.until.value <= |w.log|)
  {
    OutputsOf(q.events) + HeldFor(w.handler, i) + HeldFor(w.lost, i) == Due(max, q, w.log, w.seeded)
  }

  predicate DeliveryOk(max: int, w: World, current: Option<nat>)
    requires QueuesOk(w.queues, current, |w.log|)
  {
    forall i {:trigger w.queues[i]} | 0 <= i < |w.queues| :: Delivered(max, w.queues[i], i, w)
  }

  /** The invariant of one session. */
  predicate LifeOk(limits: Limits, l: Life) {
    && ShapeOk(l.session)
    && QueuesOk(l.world.queues, l.session.queue, |l.world.log|)
    && TimersOk(l.world.timers, l.session.timer, l.session.deadline, l.indexed, l.world.ops)
    && ReaderOk(l.world, l.session.hasBridge, l.indexed)
    && l.session.history == HistoryAt(limits.historyMax, l.world.log, l.world.seeded)
    && DeliveryOk(limits.historyMax, l.world, l.session.queue)
  }

  // ---- proofs about the pieces ----------------------------------------

  lemma NewLifeOk(limits: Limits, id: string, group: string, owner: string)
    ensures LifeOk(limits, NewLife(id, group, owner))
  {
  }

  lemma RecoveredLifeOk(limits: Limits, found: Managed, output: Text, truncated: bool)
    ensures LifeOk(limits, RecoveredLife(limits.historyMax, found, output, truncated))
  {
    AppendRefines(limits.historyMax, [], truncated, output);
    assert Texts([Some(output)]) == [output] && [] + [output] == [output];
  }

  lemma RetireQueues(queues: seq<OutputQueue>, current: Option<nat>, logged: nat)
    requires QueuesOk(queues, current, logged)
    ensures QueuesOk(Retire(queues, current, logged), None, logged)
  {
  }

  lemma CancelTimers(timers: seq<Timer>, current: Option<nat>, deadline: Option<int>, indexed: bool, ops: nat,
                     later: nat)
    requires TimersOk(timers, current, deadline, indexed, ops) && later >= ops
    ensures var cancelled := CancelTimer(timers, current);
            && |cancelled| == |timers|
            && (forall k | 0 <= k < |timers| :: !cancelled[k].state.Armed? && cancelled[k].issuedAt <= later)
            && TimersOk(cancelled, None, None, indexed, later)
            && TimersOk(cancelled, None, None, false, later)
  {
  }

  lemma {:induction false} ReplayOutputs(chunks: seq<Text>)
    ensures OutputsOf(Replay(chunks)) == Wrapped(chunks)
  {
    if chunks != [] {
      var init := chunks[..|chunks| - 1];
      ReplayOutputs(init);
      assert Replay(chunks)[..|chunks| - 1] == Replay(init);
    }
  }

  lemma PutOne(events: seq<QueueEvent>, event: QueueEvent)
    ensures OutputsOf(events + [event]) == OutputsOf(events) + (if event.Output? then [event.data] else [])
  {
  }

  lemma LogOne(max: int, log: seq<Option<Text>>, seeded: bool, data: Option<Text>)
    ensures HistoryAt(max, log + [data], seeded) ==
              if data.Some? then Append(max, HistoryAt(max, log, seeded), data.value) else HistoryAt(max, log, seeded)
  {
    assert (log + [data])[..|log|] == log;
    if data.Some? {
      AppendRefines(max, Texts(log), seeded, data.value);
    }
  }

  /** Retiring the current queue freezes what is due to it. */
  lemma RetireDelivery(max: int, w: World, t: World, current: Option<nat>)
    requires QueuesOk(w.queues, current, |w.log|) && DeliveryOk(max, w, current)
    requires t.queues == Retire(w.queues, current, |w.log|)
    requires t.log == w.log && t.handler == w.handler && t.lost == w.lost && t.seeded == w.seeded
    ensures QueuesOk(t.queues, None, |t.log|) && DeliveryOk(max, t, None)
  {
    RetireQueues(w.queues, current, |w.log|);
    forall i | 0 <= i < |t.queues| ensures Delivered(max, t.queues[i], i, t) {
      assert Delivered(max, w.queues[i], i, w);
    }
  }

  // ---- every move keeps the invariant ---------------------------------

  lemma DisconnectOk(limits: Limits, l: Life, status: SessionStatus, deadline: Option<int>)
    requires LifeOk(limits, l) && status != Attached
    ensures LifeOk(limits, Disconnect(l, status, None))
    ensures TimersOk(Disconnect(l, status, deadline).world.timers, None, None, l.indexed, l.world.ops + 1)
  {
    var t := Disconnect(l, status, None);
    RetireDelivery(limits.historyMax, l.world, t.world, l.session.queue);
    CancelTimers(l.world.timers, l.session.timer, l.session.deadline, l.indexed, l.world.ops, l.world.ops + 1);
  }

  lemma DetachOk(limits: Limits, l: Life, now: int)
    requires LifeOk(limits, l) && l.indexed
    ensures LifeOk(limits, Detach(limits, l, now))
  {
    DisconnectOk(limits, l, Detached, Some(now + limits.reconnect));
    var t := Disconnect(l, Detached, None);
    var u := Detach(limits, l, now);
    assert t.world.(timers := u.world.timers) == u.world;
    SameDelivery(limits.historyMax, t.world, u.world, None);
  }

  /** Delivery only depends on the queues, the log and the handlers. */
  lemma SameDelivery(max: int, w: World, t: World, current: Option<nat>)
    requires QueuesOk(w.queues, current, |w.log|) && DeliveryOk(max, w, current)
    requires t.queues == w.queues && t.log == w.log && t.seeded == w.seeded
    requires t.handler == w.handler && t.lost == w.lost
    ensures DeliveryOk(max, t, current)
  {
  }

  lemma CloseOk(limits: Limits, l: Life)
    requires LifeOk(limits, l)
    ensures LifeOk(limits, Close(l))
  {
    DisconnectOk(limits, l, Closed, None);
    SameDelivery(limits.historyMax, Disconnect(l, Closed, None).world, Close(l).world, None);
  }

  /** The new queue starts with the history of exactly this moment. */
  lemma AttachOk(limits: Limits, l: Life, now: int)
    requires LifeOk(limits, l) && l.indexed
    ensures LifeOk(limits, Attach(l, now))
  {
    var max, w, t := limits.historyMax, l.world, Attach(l, now).world;
    var retired := w.(queues := Retire(w.queues, l.session.queue, |w.log|));
    RetireDelivery(max, w, retired, l.session.queue);
    CancelTimers(w.timers, l.session.timer, l.session.deadline, l.indexed, w.ops, w.ops + 1);
    ReplayOutputs(l.session.history.chunks);
    assert w.log[..|w.log|] == w.log && w.log[|w.log|..] == [];
    forall i | 0 <= i < |t.queues|
      ensures QueueOk(t.queues[i], i, Some(|w.queues|), |t.log|) && Delivered(max, t.queues[i], i, t)
    {
      if i < |w.queues| {
        assert t.queues[i] == retired.queues[i];
        assert QueueOk(retired.queues[i], i, None, |w.log|);
        assert Delivered(max, retired.queues[i], i, retired);
      }
    }
  }

  lemma ExpireOk(limits: Limits, l: Life, timer: nat)
    requires LifeOk(limits, l) && Possible(l, DoExpire(timer))
    ensures LifeOk(limits, Expire(l, timer))
  {
    SameDelivery(limits.historyMax, l.world, Expire(l, timer).world, l.session.queue);
  }

  lemma DropOk(limits: Limits, l: Life)
    requires LifeOk(limits, l) && Possible(l, DoDrop)
    ensures LifeOk(limits, Drop(l))
  {
  }

  lemma StartedOk(limits: Limits, l: Life)
    requires LifeOk(limits, l) && l.world.stage.Starting?
    ensures LifeOk(limits, BridgeStarted(l))
    ensures LifeOk(limits, StartFailed(l))
  {
    var max, w := limits.historyMax, l.world;
    SameDelivery(max, w, BridgeStarted(l).world, l.session.queue);
    if l.indexed && w.stage == Starting(true) {
      RetireDelivery(max, w, StartFailed(l).world, l.session.queue);
    } else {
      SameDelivery(max, w, StartFailed(l).world, l.session.queue);
    }
  }

  /** One more output is due to the current queue and to no other. */
  lemma DueOne(max: int, q: OutputQueue, log: seq<Option<Text>>, seeded: bool, data: Option<Text>)
    requires q.from <= |log| && (q.until.Some? ==> q.from <= q.until.value <= |log|)
    ensures Due(max, q, log + [data], seeded) == Due(max, q, log, seeded) + (if q.until.None? then [data] else [])
  {
    var longer := log + [data];
    assert longer[..q.from] == log[..q.from];
    if q.until.None? {
      assert longer[q.from..|longer|] == log[q.from..|log|] + [data];
    } else {
      assert longer[q.from..q.until.value] == log[q.from..q.until.value];
    }
  }

  /** A handler takes over an output that is due to its queue; an output without data is put at once. */
  lemma HeardBy(max: int, q: OutputQueue, r: OutputQueue, i: nat, w: World, t: World, data: Option<Text>)
    requires q.from <= |w.log| && (q.until.Some? ==> q.from <= q.until.value <= |w.log|)
    requires Delivered(max, q, i, w)
    requires w.handler == None && w.lost == None && t.lost == None && t.log == w.log + [data] && t.seeded == w.seeded
    requires data.None? ==> t.handler.None?
    requires data.Some? ==> t.handler.Some? && t.handler.value.data == data.value
    requires data.Some? ==> (t.handler.value.queue == Some(i) <==> q.until.None?)
    requires r == if data.None? && q.until.None? then q.(events := q.events + [Output(None)]) else q
    ensures Delivered(max, r, i, t)
  {
    DueOne(max, r, w.log, w.seeded, data);
    PutOne(q.events, Output(None));
  }

  /** A recorded output is due to the current queue, and until it is put its handler holds it. */
  lemma HearOutputDelivery(max: int, l: Life, data: Option<Text>)
    requires QueuesOk(l.world.queues, l.session.queue, |l.world.log|)
    requires DeliveryOk(max, l.world, l.session.queue)
    requires l.world.handler == None && l.world.lost == None && l.indexed
    ensures var t := HearOutput(max, l, data).world;
            QueuesOk(t.queues, l.session.queue, |t.log|) && DeliveryOk(max, t, l.session.queue)
  {
    var w, t := l.world, HearOutput(max, l, data).world;
    assert t.log == w.log + [data];
    forall i | 0 <= i < |t.queues|
      ensures QueueOk(t.queues[i], i, l.session.queue, |t.log|) && Delivered(max, t.queues[i], i, t)
    {
      assert QueueOk(w.queues[i], i, l.session.queue, |w.log|) && Delivered(max, w.queues[i], i, w);
      HeardBy(max, w.queues[i], t.queues[i], i, w, t, data);
    }
  }

  lemma HearOutputOk(limits: Limits, l: Life, data: Option<Text>)
    requires LifeOk(limits, l) && Possible(l, DoHearOutput(data))
    ensures LifeOk(limits, HearOutput(limits.historyMax, l, data))
  {
    if l.indexed {
      HearOutputDelivery(limits.historyMax, l, data);
      LogOne(limits.historyMax, l.world.log, l.world.seeded, data);
    }
  }

  /** Events other than outputs do not disturb the delivery. */
  lemma PutDelivery(max: int, w: World, t: World, queue: Option<nat>, event: QueueEvent, current: Option<nat>)
    requires QueuesOk(w.queues, current, |w.log|) && DeliveryOk(max, w, current)
    requires !event.Output? && t.queues == Put(w.queues, queue, event)
    requires t.log == w.log && t.handler == w.handler && t.lost == w.lost && t.seeded == w.seeded
    ensures QueuesOk(t.queues, current, |t.log|) && DeliveryOk(max, t, current)
  {
    forall i | 0 <= i < |t.queues|
      ensures QueueOk(t.queues[i], i, current, |t.log|) && Delivered(max, t.queues[i], i, t)
    {
      assert QueueOk(w.queues[i], i, current, |w.log|) && Delivered(max, w.queues[i], i, w);
      if queue == Some(i) {
        PutOne(w.queues[i].events, event);
      } else {
        assert t.queues[i] == w.queues[i];
      }
    }
  }

  lemma PutOutputDelivery(max: int, l: Life)
    requires QueuesOk(l.world.queues, l.session.queue, |l.world.log|)
    requires DeliveryOk(max, l.world, l.session.queue)
    requires l.world.handler.Some? && l.world.lost == None
    ensures var t := PutOutput(l).world;
            QueuesOk(t.queues, l.session.queue, |t.log|) && DeliveryOk(max, t, l.session.queue)
  {
    var w, t := l.world, PutOutput(l).world;
    forall i | 0 <= i < |t.queues|
      ensures QueueOk(t.queues[i], i, l.session.queue, |t.log|) && Delivered(max, t.queues[i], i, t)
    {
      assert QueueOk(w.queues[i], i, l.session.queue, |w.log|) && Delivered(max, w.queues[i], i, w);
      PutOne(w.queues[i].events, Output(Some(w.handler.value.data)));
    }
  }

  lemma PutOutputOk(limits: Limits, l: Life)
    requires LifeOk(limits, l) && l.world.handler.Some?
    ensures LifeOk(limits, PutOutput(l))
  {
    PutOutputDelivery(limits.historyMax, l);
  }

  lemma ReaderCancelledOk(limits: Limits, l: Life)
    requires LifeOk(limits, l) && Possible(l, DoReaderCancelled)
    ensures LifeOk(limits, ReaderCancelled(l))
  {
    var max, w, t := limits.historyMax, l.world, ReaderCancelled(l).world;
    forall i | 0 <= i < |t.queues| ensures Delivered(max, t.queues[i], i, t) {
      assert Delivered(max, w.queues[i], i, w);
    }
  }

  lemma NoticesOk(limits: Limits, l: Life, m: Move)
    requires LifeOk(limits, l) && Possible(l, m)
    requires m.DoHearExit? || m.DoPutExit? || m.DoHearError?
    ensures LifeOk(limits, Step(limits, l, m))
  {
    var max, w, t := limits.historyMax, l.world, Step(limits, l, m).world;
    match m
    case DoHearExit(code) =>
      SameDelivery(max, w, t, l.session.queue);
    case DoPutExit(i) =>
      PutDelivery(max, w, t, w.notices[i].queue, Exit(w.notices[i].code), l.session.queue);
    case DoHearError(message) =>
      if l.indexed {
        PutDelivery(max, w, t, l.session.queue, Error(message), l.session.queue);
      }
  }

  lemma MoveOk(limits: Limits, l: Life, m: Move)
    requires LifeOk(limits, l) && Possible(l, m)
    ensures LifeOk(limits, Step(limits, l, m))
  {
    match m
    case DoAttach(now) => AttachOk(limits, l, now);
    case DoDetach(now) => DetachOk(limits, l, now);
    case DoClose => CloseOk(limits, l);
    case DoExpire(timer) => ExpireOk(limits, l, timer);
    case DoDrop => DropOk(limits, l);
    case DoBridgeStarted => StartedOk(limits, l);
    case DoStartFailed => StartedOk(limits, l);
    case DoHearOutput(data) => HearOutputOk(limits, l, data);
    case DoPutOutput => PutOutputOk(limits, l);
    case DoReaderCancelled => ReaderCancelledOk(limits, l);
    case DoHearExit(_) => NoticesOk(limits, l, m);
    case DoPutExit(_) => NoticesOk(limits, l, m);
    case DoHearError(_) => NoticesOk(limits, l, m);
  }
}
