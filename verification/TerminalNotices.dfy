/**
 What reaches a client besides outputs: exits, which a suspended handler holds
 like an output, and errors. And where the output log comes from.
 */
module TerminalNotices {
  import opened Wrappers
  import opened Strings
  import opened OutputHistory
  import opened TerminalLife
  import opened TerminalRegistry
  import opened TerminalRuns

  // ---- exits ----------------------------------------------------------

  function Bit(b: bool): nat {
    if b then 1 else 0
  }

  /** How often an exit with this code was put on a queue. */
  function ExitsOn(events: seq<QueueEvent>, code: Option<int>): nat {
    if events == [] then 0
    else ExitsOn(events[..|events| - 1], code) + Bit(events[|events| - 1] == Exit(code))
  }

  function Received(w: World, q: nat, code: Option<int>): nat {
    if q < |w.queues| then ExitsOn(w.queues[q].events, code) else 0
  }

  /** How many suspended handlers hold an exit with this code for a queue. */
  function Held(notices: seq<Notice>, q: nat, code: Option<int>): nat {
    if notices == [] then 0
    else Held(notices[..|notices| - 1], q, code) + Bit(notices[|notices| - 1] == Notice(Some(q), code))
  }

  lemma ExitsOne(events: seq<QueueEvent>, event: QueueEvent, code: Option<int>)
    ensures ExitsOn(events + [event], code) == ExitsOn(events, code) + Bit(event == Exit(code))
  {
    assert (events + [event])[..|events|] == events;
  }

  lemma {:induction false} ReplayHasNoExits(chunks: seq<Text>, code: Option<int>)
    ensures ExitsOn(Replay(chunks), code) == 0
  {
    if chunks != [] {
      var init := chunks[..|chunks| - 1];
      ReplayHasNoExits(init, code);
      assert Replay(chunks)[..|chunks| - 1] == Replay(init);
    }
  }

  lemma HeldOne(notices: seq<Notice>, n: Notice, q: nat, code: Option<int>)
    ensures Held(notices + [n], q, code) == Held(notices, q, code) + Bit(n == Notice(Some(q), code))
  {
    assert (notices + [n])[..|notices|] == notices;
  }

  lemma {:induction false} HeldWithout(notices: seq<Notice>, i: nat, q: nat, code: Option<int>)
    requires i < |notices|
    ensures Held(notices, q, code) ==
              Held(notices[..i] + notices[i + 1..], q, code) + Bit(notices[i] == Notice(Some(q), code))
  {
    var init, last := notices[..|notices| - 1], notices[|notices| - 1];
    if i == |init| {
      assert notices[..i] + notices[i + 1..] == init;
    } else {
      HeldWithout(init, i, q, code);
      assert notices[..i] + notices[i + 1..] == (init[..i] + init[i + 1..]) + [last];
      HeldOne(init[..i] + init[i + 1..], last, q, code);
    }
  }

  lemma PutReceived(w: World, t: World, queue: Option<nat>, event: QueueEvent, q: nat, code: Option<int>)
    requires t.queues == Put(w.queues, queue, event)
    ensures Received(t, q, code) ==
              Received(w, q, code) + Bit(queue == Some(q) && q < |w.queues| && event == Exit(code))
  {
    if q < |w.queues| {
      ExitsOne(w.queues[q].events, event, code);
    }
  }

  lemma RetireReceived(w: World, t: World, queue: Option<nat>, q: nat, code: Option<int>)
    requires t.queues == Retire(w.queues, queue, |w.log|)
    ensures Received(t, q, code) == Received(w, q, code)
  {
  }

  /** A move that neither hears, puts nor drops an exit. */
  predicate BypassesExits(m: Move) {
    !m.DoHearExit? && !m.DoPutExit? && !m.DoReaderCancelled?
  }

  lemma AttachBypasses(l: Life, now: int, q: nat, code: Option<int>)
    ensures Received(Attach(l, now).world, q, code) == Received(l.world, q, code)
  {
    ReplayHasNoExits(l.session.history.chunks, code);
  }

  /** Puts of other events and changes of the current queue. */
  lemma MoveBypasses(limits: Limits, l: Life, m: Move, q: nat, code: Option<int>)
    requires Possible(l, m) && BypassesExits(m)
    ensures var t := Step(limits, l, m).world;
            Received(t, q, code) == Received(l.world, q, code) && t.notices == l.world.notices
  {
    var w, t := l.world, Step(limits, l, m).world;
    match m
    case DoAttach(now) => AttachBypasses(l, now, q, code);
    case DoHearOutput(data) =>
      if l.indexed && data.None? {
        PutReceived(w, t, l.session.queue, Output(None), q, code);
      }
    case DoPutOutput => PutReceived(w, t, w.handler.value.queue, Output(Some(w.handler.value.data)), q, code);
    case DoHearError(message) =>
      if l.indexed {
        PutReceived(w, t, l.session.queue, Error(message), q, code);
      }
    case _ =>
  }

  /** An exit that the session hears while the queue is its current one. */
  predicate HearsFor(l: Life, m: Option<Move>, q: nat, code: Option<int>) {
    m == Some(DoHearExit(code)) && l.indexed && l.session.queue == Some(q)
  }

  /** What a reader that is cancelled still held for the queue. */
  function Dropped(l: Life, m: Option<Move>, q: nat, code: Option<int>): nat {
    if m == Some(DoReaderCancelled) then Held(l.world.notices, q, code) else 0
  }

  predicate ExitsBalance(l: Life, m: Option<Move>, t: Life, q: nat, code: Option<int>) {
    Received(t.world, q, code) + Held(t.world.notices, q, code) + Dropped(l, m, q, code)
    == Received(l.world, q, code) + Held(l.world.notices, q, code) + Bit(HearsFor(l, m, q, code))
  }

  lemma HearBalances(l: Life, heard: Option<int>, q: nat, code: Option<int>)
    ensures ExitsBalance(l, Some(DoHearExit(heard)), HearExit(l, heard), q, code)
  {
    if l.indexed {
      HeldOne(l.world.notices, Notice(l.session.queue, heard), q, code);
    }
  }

  lemma PutBalances(l: Life, i: nat, q: nat, code: Option<int>)
    requires i < |l.world.notices|
    requires l.world.notices[i].queue.Some? ==> l.world.notices[i].queue.value < |l.world.queues|
    ensures ExitsBalance(l, Some(DoPutExit(i)), PutExit(l, i), q, code)
  {
    var n := l.world.notices[i];
    HeldWithout(l.world.notices, i, q, code);
    PutReceived(l.world, PutExit(l, i).world, n.queue, Exit(n.code), q, code);
  }

  lemma MovedBalances(limits: Limits, l: Life, m: Option<Move>, t: Life, q: nat, code: Option<int>)
    requires LifeOk(limits, l) && Moved(limits, l, m, t)
    ensures ExitsBalance(l, m, t, q, code)
  {
    if m.Some? {
      match m.value
      case DoHearExit(heard) => HearBalances(l, heard, q, code);
      case DoPutExit(i) => PutBalances(l, i, q, code);
      case DoReaderCancelled =>
      case _ => MoveBypasses(limits, l, m.value, q, code);
    }
  }

  // ---- exits over whole runs ------------------------------------------

  /** The event reports an exit with this code while the queue is the session's current one. */
  predicate ReportsExit(s: Registry, e: Event, id: string, q: nat, code: Option<int>) {
    e == Internal(id, DoHearExit(code)) && id in s.lives && s.lives[id].indexed && s.lives[id].session.queue == Some(q)
  }

  /** How many such reports there were before j. */
  function ExitsHeard(states: seq<Registry>, events: seq<Event>, j: nat, id: string, q: nat, code: Option<int>): nat
    requires j <= |events| < |states|
  {
    if j == 0 then 0
    else
      ExitsHeard(states, events, j - 1, id, q, code) + Bit(ReportsExit(states[j - 1], events[j - 1], id, q, code))
  }

  /** How many of them a handler held when a close cancelled the reader. */
  function ExitsDropped(states: seq<Registry>, events: seq<Event>, j: nat, id: string, q: nat, code: Option<int>): nat
    requires j <= |events| < |states|
  {
    if j == 0 then 0
    else
      var s := states[j - 1];
      ExitsDropped(states, events, j - 1, id, q, code)
      + (if events[j - 1] == Internal(id, DoReaderCancelled) && id in s.lives
         then Held(s.lives[id].world.notices, q, code) else 0)
  }

  /** What the bridge does on its own reaches its session as it is. */
  lemma InternalMove(s: Registry, e: Event, id: string, m: Move)
    requires Enabled(s, e) && IsInternal(m)
    ensures MoveOn(s, e, id) == Some(m) <==> e == Internal(id, m)
  {
  }

  predicate ExitsAccounted(states: seq<Registry>, events: seq<Event>, j: nat, id: string, q: nat, code: Option<int>)
    requires j <= |events| < |states|
  {
    id in states[j].lives ==>
      Received(states[j].lives[id].world, q, code) + Held(states[j].lives[id].world.notices, q, code)
      + ExitsDropped(states, events, j, id, q, code)
      == ExitsHeard(states, events, j, id, q, code)
  }

  lemma RunStepBalances(limits: Limits, found: seq<Found>, states: seq<Registry>, events: seq<Event>, j: nat,
                        id: string, q: nat, code: Option<int>)
    requires IsRun(limits, found, states, events) && j < |events| && id in states[j].lives
    ensures id in states[j + 1].lives
    ensures ExitsBalance(states[j].lives[id], MoveOn(states[j], events[j], id), states[j + 1].lives[id], q, code)
    ensures MoveOn(states[j], events[j], id) == Some(DoReaderCancelled) <==>
              events[j] == Internal(id, DoReaderCancelled)
    ensures HearsFor(states[j].lives[id], MoveOn(states[j], events[j], id), q, code) <==>
              ReportsExit(states[j], events[j], id, q, code)
  {
    RunStep(limits, found, states, events, j, id);
    MovedBalances(limits, states[j].lives[id], MoveOn(states[j], events[j], id), states[j + 1].lives[id], q, code);
    InternalMove(states[j], events[j], id, DoReaderCancelled);
    InternalMove(states[j], events[j], id, DoHearExit(code));
  }

  lemma {:induction false} NothingBefore(states: seq<Registry>, events: seq<Event>, j: nat, id: string, q: nat,
                                         code: Option<int>)
    requires j <= |events| < |states| && forall k | 0 <= k < j :: id !in states[k].lives
    ensures ExitsHeard(states, events, j, id, q, code) == 0 == ExitsDropped(states, events, j, id, q, code)
  {
    if j > 0 {
      NothingBefore(states, events, j - 1, id, q, code);
    }
  }

  lemma NewAccounted(limits: Limits, found: seq<Found>, states: seq<Registry>, events: seq<Event>, j: nat,
                     id: string, q: nat, code: Option<int>)
    requires IsRun(limits, found, states, events) && j < |events| && id !in states[j].lives
    ensures ExitsAccounted(states, events, j + 1, id, q, code)
  {
    if id in states[j + 1].lives {
      RunStep(limits, found, states, events, j, id);
      NotLostYet(limits, found, states, events, j, id);
      NothingBefore(states, events, j + 1, id, q, code);
    }
  }

  lemma AccountedAtFirst(limits: Limits, found: seq<Found>, states: seq<Registry>, events: seq<Event>,
                         id: string, q: nat, code: Option<int>)
    requires IsRun(limits, found, states, events)
    ensures ExitsAccounted(states, events, 0, id, q, code)
  {
    if id in states[0].lives {
      RecoveredFacts(limits, found, id);
    }
  }

  lemma AccountedNext(limits: Limits, found: seq<Found>, states: seq<Registry>, events: seq<Event>, j: nat,
                      id: string, q: nat, code: Option<int>)
    requires IsRun(limits, found, states, events) && 0 < j < |states|
    requires ExitsAccounted(states, events, j - 1, id, q, code)
    ensures ExitsAccounted(states, events, j, id, q, code)
  {
    if id in states[j - 1].lives {
      RunStepBalances(limits, found, states, events, j - 1, id, q, code);
    } else {
      NewAccounted(limits, found, states, events, j - 1, id, q, code);
    }
  }

  /**
   Main result: for every queue and every exit code, the exits the queue has
   received, those that suspended handlers hold for it, and those that went
   with a cancelled reader are exactly the exits reported while the queue was
   the session's current one.
   */
  lemma {:induction false} ExitsDeliveredExactlyOnce(limits: Limits, found: seq<Found>, states: seq<Registry>,
                                                     events: seq<Event>, j: nat, id: string, q: nat,
                                                     code: Option<int>)
    requires IsRun(limits, found, states, events) && j < |states|
    ensures ExitsAccounted(states, events, j, id, q, code)
    decreases j
  {
    if j == 0 {
      AccountedAtFirst(limits, found, states, events, id, q, code);
    } else {
      ExitsDeliveredExactlyOnce(limits, found, states, events, j - 1, id, q, code);
      AccountedNext(limits, found, states, events, j, id, q, code);
    }
  }

  /** At k a close cancels the reader while a handler holds an exit with this code for the queue. */
  ghost predicate DropsExitAt(states: seq<Registry>, events: seq<Event>, k: nat, id: string, q: nat, code: Option<int>)
    requires k < |events| < |states|
  {
    && events[k] == Internal(id, DoReaderCancelled) && id in states[k].lives
    && Notice(Some(q), code) in states[k].lives[id].world.notices
  }

  lemma {:induction false} HeldIs(notices: seq<Notice>, q: nat, code: Option<int>)
    ensures Held(notices, q, code) > 0 <==> Notice(Some(q), code) in notices
  {
    if notices != [] {
      HeldIs(notices[..|notices| - 1], q, code);
      assert notices == notices[..|notices| - 1] + [notices[|notices| - 1]];
    }
  }

  lemma {:induction false} DroppedWhen(states: seq<Registry>, events: seq<Event>, j: nat, id: string, q: nat,
                                       code: Option<int>)
    requires j <= |events| < |states|
    ensures ExitsDropped(states, events, j, id, q, code) > 0 <==>
              exists k :: 0 <= k < j && DropsExitAt(states, events, k, id, q, code)
  {
    if j > 0 {
      DroppedWhen(states, events, j - 1, id, q, code);
      if id in states[j - 1].lives {
        HeldIs(states[j - 1].lives[id].world.notices, q, code);
      }
      assert DropsExitAt(states, events, j - 1, id, q, code) <==>
          events[j - 1] == Internal(id, DoReaderCancelled) && id in states[j - 1].lives
          && Held(states[j - 1].lives[id].world.notices, q, code) > 0;
    }
  }

  /**
   Main result: a queue lacks an exit reported for it if and only if a
   suspended handler still holds one, or a close cancelled the reader while a
   handler held one.
   */
  lemma ExitMissingExactly(limits: Limits, found: seq<Found>, states: seq<Registry>, events: seq<Event>, j: nat,
                           id: string, q: nat, code: Option<int>)
    requires IsRun(limits, found, states, events) && j < |states| && id in states[j].lives
    ensures Received(states[j].lives[id].world, q, code) <= ExitsHeard(states, events, j, id, q, code)
    ensures Received(states[j].lives[id].world, q, code) < ExitsHeard(states, events, j, id, q, code) <==>
              Notice(Some(q), code) in states[j].lives[id].world.notices
              || exists k :: 0 <= k < j && DropsExitAt(states, events, k, id, q, code)
  {
    ExitsDeliveredExactlyOnce(limits, found, states, events, j, id, q, code);
    HeldIs(states[j].lives[id].world.notices, q, code);
    DroppedWhen(states, events, j, id, q, code);
  }

  // ---- errors, and the log --------------------------------------------

  /** The errors put on a queue, in order. */
  function ErrorsOn(events: seq<QueueEvent>): seq<Option<string>> {
    if events == [] then []
    else
      var init, last := ErrorsOn(events[..|events| - 1]), events[|events| - 1];
      if last.Error? then init + [last.message] else init
  }

  function ErrorsGot(w: World, q: nat): seq<Option<string>> {
    if q < |w.queues| then ErrorsOn(w.queues[q].events) else []
  }

  lemma {:induction false} ReplayHasNoErrors(chunks: seq<Text>)
    ensures ErrorsOn(Replay(chunks)) == []
  {
    if chunks != [] {
      var init := chunks[..|chunks| - 1];
      ReplayHasNoErrors(init);
      assert Replay(chunks)[..|chunks| - 1] == Replay(init);
    }
  }

  lemma PutErrors(w: World, t: World, queue: Option<nat>, event: QueueEvent, q: nat)
    requires t.queues == Put(w.queues, queue, event)
    ensures ErrorsGot(t, q) ==
              ErrorsGot(w, q) + (if queue == Some(q) && q < |w.queues| && event.Error? then [event.message] else [])
  {
    if q < |w.queues| {
      assert (w.queues[q].events + [event])[..|w.queues[q].events|] == w.queues[q].events;
    }
  }

  lemma AttachErrors(l: Life, now: int, q: nat)
    ensures ErrorsGot(Attach(l, now).world, q) == ErrorsGot(l.world, q)
  {
    ReplayHasNoErrors(l.session.history.chunks);
  }

  /** The error a move brings to a queue. */
  function ErrorFor(l: Life, m: Move, q: nat): seq<Option<string>> {
    if m.DoHearError? && l.indexed && l.session.queue == Some(q) then [m.message] else []
  }

  lemma HearErrorBrings(l: Life, message: Option<string>, q: nat)
    requires l.session.queue.Some? ==> l.session.queue.value < |l.world.queues|
    ensures ErrorsGot(HearError(l, message).world, q) == ErrorsGot(l.world, q) + ErrorFor(l, DoHearError(message), q)
  {
    if l.indexed {
      PutErrors(l.world, HearError(l, message).world, l.session.queue, Error(message), q);
    }
  }

  lemma MoveBringsNone(limits: Limits, l: Life, m: Move, q: nat)
    requires Possible(l, m) && !m.DoHearError?
    ensures ErrorsGot(Step(limits, l, m).world, q) == ErrorsGot(l.world, q)
  {
    var w, t := l.world, Step(limits, l, m).world;
    match m
    case DoAttach(now) => AttachErrors(l, now, q);
    case DoHearOutput(data) =>
      if l.indexed && data.None? {
        PutErrors(w, t, l.session.queue, Output(None), q);
      }
    case DoPutOutput => PutErrors(w, t, w.handler.value.queue, Output(Some(w.handler.value.data)), q);
    case DoPutExit(i) => PutErrors(w, t, w.notices[i].queue, Exit(w.notices[i].code), q);
    case _ =>
  }

  lemma MoveErrors(limits: Limits, l: Life, m: Move, q: nat)
    requires LifeOk(limits, l) && Possible(l, m)
    ensures ErrorsGot(Step(limits, l, m).world, q) == ErrorsGot(l.world, q) + ErrorFor(l, m, q)
  {
    if m.DoHearError? {
      HearErrorBrings(l, m.message, q);
    } else {
      MoveBringsNone(limits, l, m, q);
    }
  }

  /** The output a move adds to the log. */
  function OutputIn(l: Life, m: Move): seq<Option<Text>> {
    if m.DoHearOutput? && l.indexed then [m.data] else []
  }

  lemma MoveLogs(limits: Limits, l: Life, m: Move)
    requires Possible(l, m)
    ensures Step(limits, l, m).world.log == l.world.log + OutputIn(l, m)
  {
  }

  /** The outputs that the bridge of an indexed session reported before j, in order. */
  function OutputsHeard(states: seq<Registry>, events: seq<Event>, j: nat, id: string): seq<Option<Text>>
    requires j <= |events| < |states|
  {
    if j == 0 then []
    else
      var s, e := states[j - 1], events[j - 1];
      OutputsHeard(states, events, j - 1, id)
      + (if e.Internal? && e.id == id && e.move.DoHearOutput? && id in s.lives && s.lives[id].indexed
         then [e.move.data] else [])
  }

  /** The errors it reported while the queue was the session's current one. */
  function ErrorsHeard(states: seq<Registry>, events: seq<Event>, j: nat, id: string, q: nat): seq<Option<string>>
    requires j <= |events| < |states|
  {
    if j == 0 then []
    else
      var s, e := states[j - 1], events[j - 1];
      ErrorsHeard(states, events, j - 1, id, q)
      + (if e.Internal? && e.id == id && e.move.DoHearError? && id in s.lives && s.lives[id].indexed
            && s.lives[id].session.queue == Some(q)
         then [e.move.message] else [])
  }

  /** What a step of a run adds to a session's log and to the errors on a queue. */
  predicate ReportsStep(l: Life, e: Event, t: Life, id: string, q: nat) {
    var own := e.Internal? && e.id == id;
    && t.world.log == l.world.log + (if own then OutputIn(l, e.move) else [])
    && ErrorsGot(t.world, q) == ErrorsGot(l.world, q) + (if own then ErrorFor(l, e.move, q) else [])
  }

  lemma EventMoves(s: Registry, e: Event, id: string)
    requires Enabled(s, e)
    ensures e.Internal? && e.id == id <==> MoveOn(s, e, id).Some? && IsInternal(MoveOn(s, e, id).value)
    ensures e.Internal? && e.id == id ==> MoveOn(s, e, id) == Some(e.move)
  {
  }

  lemma RunStepReports(limits: Limits, found: seq<Found>, states: seq<Registry>, events: seq<Event>, j: nat,
                       id: string, q: nat)
    requires IsRun(limits, found, states, events) && j < |events| && id in states[j].lives
    ensures id in states[j + 1].lives
    ensures ReportsStep(states[j].lives[id], events[j], states[j + 1].lives[id], id, q)
  {
    RunStep(limits, found, states, events, j, id);
    EventMoves(states[j], events[j], id);
    MovedReports(limits, states[j].lives[id], events[j], MoveOn(states[j], events[j], id), states[j + 1].lives[id],
                 id, q);
  }

  lemma MovedReports(limits: Limits, l: Life, e: Event, m: Option<Move>, t: Life, id: string, q: nat)
    requires LifeOk(limits, l) && Moved(limits, l, m, t)
    requires e.Internal? && e.id == id <==> m.Some? && IsInternal(m.value)
    requires e.Internal? && e.id == id ==> m == Some(e.move)
    ensures ReportsStep(l, e, t, id, q)
  {
    if m.Some? {
      MoveLogs(limits, l, m.value);
      MoveErrors(limits, l, m.value, q);
    }
  }

  lemma {:induction false} NoReportsBefore(states: seq<Registry>, events: seq<Event>, j: nat, id: string, q: nat)
    requires j <= |events| < |states| && forall k | 0 <= k < j :: id !in states[k].lives
    ensures OutputsHeard(states, events, j, id) == [] && ErrorsHeard(states, events, j, id, q) == []
  {
    if j > 0 {
      NoReportsBefore(states, events, j - 1, id, q);
    }
  }

  /** The log a session begins with: empty, or the one chunk that was found on disk. */
  function LogAtFirst(states: seq<Registry>, id: string): seq<Option<Text>>
    requires states != []
  {
    if id in states[0].lives then states[0].lives[id].world.log else []
  }

  lemma NewReports(limits: Limits, found: seq<Found>, states: seq<Registry>, events: seq<Event>, j: nat,
                   id: string, q: nat)
    requires IsRun(limits, found, states, events) && j < |events|
    requires id !in states[j].lives && id in states[j + 1].lives
    ensures states[j + 1].lives[id].world.log == [] && ErrorsGot(states[j + 1].lives[id].world, q) == []
    ensures OutputsHeard(states, events, j + 1, id) == [] && ErrorsHeard(states, events, j + 1, id, q) == []
    ensures LogAtFirst(states, id) == []
  {
    RunStep(limits, found, states, events, j, id);
    NotLostYet(limits, found, states, events, j, id);
    NoReportsBefore(states, events, j + 1, id, q);
  }

  predicate Reported(states: seq<Registry>, events: seq<Event>, j: nat, id: string, q: nat)
    requires j <= |events| < |states|
  {
    id in states[j].lives ==>
      && states[j].lives[id].world.log == LogAtFirst(states, id) + OutputsHeard(states, events, j, id)
      && ErrorsGot(states[j].lives[id].world, q) == ErrorsHeard(states, events, j, id, q)
  }

  lemma ReportedOn(states: seq<Registry>, events: seq<Event>, j: nat, id: string, q: nat)
    requires j < |events| < |states| && id in states[j].lives && id in states[j + 1].lives
    requires Reported(states, events, j, id, q)
    requires ReportsStep(states[j].lives[id], events[j], states[j + 1].lives[id], id, q)
    ensures Reported(states, events, j + 1, id, q)
  {
  }

  lemma ReportedNext(limits: Limits, found: seq<Found>, states: seq<Registry>, events: seq<Event>, j: nat,
                     id: string, q: nat)
    requires IsRun(limits, found, states, events) && 0 < j < |states| && Reported(states, events, j - 1, id, q)
    ensures Reported(states, events, j, id, q)
  {
    if id in states[j - 1].lives {
      RunStepReports(limits, found, states, events, j - 1, id, q);
      ReportedOn(states, events, j - 1, id, q);
    } else if id in states[j].lives {
      NewReports(limits, found, states, events, j - 1, id, q);
    }
  }

  lemma ReportedAtFirst(limits: Limits, found: seq<Found>, states: seq<Registry>, events: seq<Event>,
                        id: string, q: nat)
    requires IsRun(limits, found, states, events)
    ensures Reported(states, events, 0, id, q)
  {
    if id in states[0].lives {
      RecoveredFacts(limits, found, id);
      assert states[0].lives[id].world.log + [] == states[0].lives[id].world.log;
    }
  }

  /**
   Main result: the output log that delivery and history are measured against
   is what the bridge reported, in order, after what was found on disk; and a
   queue has received exactly the errors reported while it was current.
   */
  lemma {:induction false} ReportsArrive(limits: Limits, found: seq<Found>, states: seq<Registry>, events: seq<Event>,
                                         j: nat, id: string, q: nat)
    requires IsRun(limits, found, states, events) && j < |states|
    ensures Reported(states, events, j, id, q)
    decreases j
  {
    if j == 0 {
      ReportedAtFirst(limits, found, states, events, id, q);
    } else {
      ReportsArrive(limits, found, states, events, j - 1, id, q);
      ReportedNext(limits, found, states, events, j, id, q);
    }
  }
}
