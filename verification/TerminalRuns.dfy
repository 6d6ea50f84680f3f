/**
 What holds over whole runs of the terminal service: when a reconnect timer may
 close a session, and what an attached client receives.
 */
module TerminalRuns {
  import opened Wrappers
  import opened Strings
  import opened OutputHistory
  import opened TerminalLife
  import opened TerminalRegistry

  /** One step of a run, as one session sees it. */
  lemma RunStep(limits: Limits, found: seq<Found>, states: seq<Registry>, events: seq<Event>, j: nat, id: string)
    requires IsRun(limits, found, states, events) && j < |events|
    ensures Inv(limits, states[j]) && Enabled(states[j], events[j])
    ensures id in states[j].lives ==>
              && id in states[j + 1].lives && LifeOk(limits, states[j].lives[id])
              && Moved(limits, states[j].lives[id], MoveOn(states[j], events[j], id), states[j + 1].lives[id])
    ensures id !in states[j].lives && id in states[j + 1].lives ==>
              events[j].CreateSession? && states[j + 1].lives[id] == NewLife(id, events[j].group, events[j].owner)
  {
    assert Enabled(states[j], events[j]) && states[j + 1] == Apply(limits, states[j], events[j]);
    RunInv(limits, found, states, events, j);
    EventIsMove(limits, states[j], events[j], id);
  }

  // ---- reconnect timers -----------------------------------------------

  /** The moves that count as using the session: attach, detach, a close of any kind, exit, a failed attach. */
  predicate Disturbs(l: Life, m: Move)
    requires Possible(l, m)
  {
    match m
    case DoAttach(_) => true
    case DoDetach(_) => true
    case DoClose => true
    case DoExpire(timer) => Expires(l, timer)
    case DoHearExit(_) => l.indexed
    case DoStartFailed => l.indexed && l.world.stage == Starting(true)
    case DoDrop => false
    case DoBridgeStarted => false
    case DoHearOutput(_) => false
    case DoPutOutput => false
    case DoReaderCancelled => false
    case DoPutExit(_) => false
    case DoHearError(_) => false
  }

  /** Timers keep their deadline and issue number, and only a detach makes one. */
  lemma TimersPersist(limits: Limits, l: Life, m: Move, k: nat)
    requires Possible(l, m)
    ensures var t := Step(limits, l, m);
            && t.world.ops == l.world.ops + (if Disturbs(l, m) then 1 else 0)
            && |t.world.timers| == |l.world.timers| + (if m.DoDetach? then 1 else 0)
            && (k < |l.world.timers| ==>
                  t.world.timers[k].deadline == l.world.timers[k].deadline
                  && t.world.timers[k].issuedAt == l.world.timers[k].issuedAt)
            && (m.DoDetach? && k == |l.world.timers| ==> t.world.timers[k].issuedAt == t.world.ops)
  {
  }

  /** With a clock that never repeats itself, a matching deadline means the timer of the last detach. */
  ghost predicate DeadlinesTell(limits: Limits, clock: int, l: Life) {
    && (forall k | 0 <= k < |l.world.timers| :: l.world.timers[k].deadline <= clock + limits.reconnect)
    && (forall k | 0 <= k < |l.world.timers| && l.session.deadline == Some(l.world.timers[k].deadline) ::
          l.world.timers[k].issuedAt == l.world.ops)
  }

  /** The clock shows a later time whenever an event reads it. */
  predicate ClockAdvances(s: Registry, e: Event) {
    (e.AttachSession? || e.DetachSession?) ==> e.now > s.clock
  }

  lemma MoveTells(limits: Limits, clock: int, later: int, l: Life, m: Move)
    requires LifeOk(limits, l) && Possible(l, m) && DeadlinesTell(limits, clock, l)
    requires clock <= later && (m.DoDetach? ==> clock < m.now == later)
    ensures DeadlinesTell(limits, later, Step(limits, l, m))
  {
    var t := Step(limits, l, m);
    forall k | 0 <= k < |t.world.timers|
      ensures t.world.timers[k].deadline <= later + limits.reconnect
      ensures t.session.deadline == Some(t.world.timers[k].deadline) ==> t.world.timers[k].issuedAt == t.world.ops
    {
      TimersPersist(limits, l, m, k);
    }
  }

  lemma MovedTells(limits: Limits, clock: int, later: int, l: Life, m: Option<Move>, t: Life)
    requires LifeOk(limits, l) && Moved(limits, l, m, t) && DeadlinesTell(limits, clock, l)
    requires clock <= later && (m.Some? && m.value.DoDetach? ==> clock < m.value.now == later)
    ensures DeadlinesTell(limits, later, t)
  {
    if m.Some? {
      MoveTells(limits, clock, later, l, m.value);
    }
  }

  lemma ClockStep(limits: Limits, s: Registry, e: Event, id: string)
    requires Enabled(s, e) && ClockAdvances(s, e)
    ensures var m := MoveOn(s, e, id);
            && s.clock <= Apply(limits, s, e).clock
            && (m.Some? && m.value.DoDetach? ==> s.clock < m.value.now == Apply(limits, s, e).clock)
  {
  }

  lemma RunStepTells(limits: Limits, found: seq<Found>, states: seq<Registry>, events: seq<Event>, j: nat, id: string)
    requires IsRun(limits, found, states, events) && j < |events| && id in states[j].lives
    requires ClockAdvances(states[j], events[j]) && DeadlinesTell(limits, states[j].clock, states[j].lives[id])
    ensures id in states[j + 1].lives && DeadlinesTell(limits, states[j + 1].clock, states[j + 1].lives[id])
  {
    RunStep(limits, found, states, events, j, id);
    ClockStep(limits, states[j], events[j], id);
    MovedTells(limits, states[j].clock, states[j + 1].clock, states[j].lives[id], MoveOn(states[j], events[j], id),
               states[j + 1].lives[id]);
  }

  lemma NewSessionTells(limits: Limits, found: seq<Found>, states: seq<Registry>, events: seq<Event>, j: nat,
                        id: string)
    requires IsRun(limits, found, states, events) && j < |events|
    requires id !in states[j].lives && id in states[j + 1].lives
    ensures DeadlinesTell(limits, states[j + 1].clock, states[j + 1].lives[id])
  {
    RunStep(limits, found, states, events, j, id);
  }

  lemma {:induction false} RunTells(limits: Limits, found: seq<Found>, states: seq<Registry>, events: seq<Event>,
                                    j: nat, id: string)
    requires IsRun(limits, found, states, events) && j < |states| && id in states[j].lives
    requires forall m | 0 <= m < j :: ClockAdvances(states[m], events[m])
    ensures DeadlinesTell(limits, states[j].clock, states[j].lives[id])
    decreases j
  {
    if j == 0 {
      RecoveredFacts(limits, found, id);
    } else {
      if id in states[j - 1].lives {
        RunTells(limits, found, states, events, j - 1, id);
        assert ClockAdvances(states[j - 1], events[j - 1]);
        RunStepTells(limits, found, states, events, j - 1, id);
      } else {
        NewSessionTells(limits, found, states, events, j - 1, id);
      }
    }
  }

  /** A recovered session has no timer and no queue, and nothing in the air. */
  lemma {:induction false} RecoveredFacts(limits: Limits, found: seq<Found>, id: string)
    requires id in Recover(limits, found).lives
    ensures var l := Recover(limits, found).lives[id];
            && l.world.timers == [] && l.world.queues == [] && l.world.ops == 0
            && l.world.lost == None && l.world.notices == []
            && l.session.deadline == None && l.session.status == Detached
  {
    if found != [] {
      var init := found[..|found| - 1];
      if id in Recover(limits, init).lives {
        RecoveredFacts(limits, init, id);
      }
    }
  }

  /** No event from i up to j uses the session. */
  ghost predicate Undisturbed(states: seq<Registry>, events: seq<Event>, id: string, i: nat, j: nat)
    requires j <= |events| < |states|
  {
    forall m {:trigger events[m]} | i <= m < j && id in states[m].lives && MoveOn(states[m], events[m], id).Some?
                                    && Possible(states[m].lives[id], MoveOn(states[m], events[m], id).value) ::
      !Disturbs(states[m].lives[id], MoveOn(states[m], events[m], id).value)
  }

  /** A timer issued at the current operation count was made by the last event that used the session. */
  lemma {:induction false} IssuingDetach(limits: Limits, found: seq<Found>, states: seq<Registry>, events: seq<Event>,
                                         j: nat, id: string, k: nat) returns (i: nat)
    requires IsRun(limits, found, states, events) && j < |states| && id in states[j].lives
    requires k < |states[j].lives[id].world.timers|
    requires states[j].lives[id].world.timers[k].issuedAt == states[j].lives[id].world.ops
    ensures i < j && id in states[i].lives && k == |states[i].lives[id].world.timers|
    ensures events[i].DetachSession? && events[i].id == id && MoveOn(states[i], events[i], id).Some?
    ensures Undisturbed(states, events, id, i + 1, j)
    decreases j
  {
    if j == 0 {
      RecoveredFacts(limits, found, id);
    }
    RunStepIssued(limits, found, states, events, j - 1, id, k);
    if IssuedHere(states, events, j - 1, id, k) {
      return j - 1;
    }
    i := IssuingDetach(limits, found, states, events, j - 1, id, k);
  }

  /** The event is the detach that makes this timer. */
  predicate IssuedHere(states: seq<Registry>, events: seq<Event>, j: nat, id: string, k: nat)
    requires j < |events| < |states|
  {
    && events[j].DetachSession? && events[j].id == id && MoveOn(states[j], events[j], id).Some?
    && id in states[j].lives && k == |states[j].lives[id].world.timers|
  }

  lemma RunStepIssued(limits: Limits, found: seq<Found>, states: seq<Registry>, events: seq<Event>,
                      j: nat, id: string, k: nat)
    requires IsRun(limits, found, states, events) && j < |events| && id in states[j + 1].lives
    requires k < |states[j + 1].lives[id].world.timers|
    requires states[j + 1].lives[id].world.timers[k].issuedAt == states[j + 1].lives[id].world.ops
    ensures !IssuedHere(states, events, j, id, k) ==>
              && id in states[j].lives && k < |states[j].lives[id].world.timers|
              && states[j].lives[id].world.timers[k].issuedAt == states[j].lives[id].world.ops
              && Undisturbed(states, events, id, j, j + 1)
  {
    RunStep(limits, found, states, events, j, id);
    IssuedBy(limits, states[j].lives[id], MoveOn(states[j], events[j], id), states[j + 1].lives[id], k);
    if k == |states[j].lives[id].world.timers| {
      DetachMove(states[j], events[j], id);
    }
  }

  lemma DetachMove(s: Registry, e: Event, id: string)
    requires Enabled(s, e) && MoveOn(s, e, id).Some? && MoveOn(s, e, id).value.DoDetach?
    ensures e.DetachSession? && e.id == id
  {
  }

  lemma IssuedBy(limits: Limits, l: Life, m: Option<Move>, t: Life, k: nat)
    requires LifeOk(limits, l) && Moved(limits, l, m, t)
    requires k < |t.world.timers| && t.world.timers[k].issuedAt == t.world.ops
    ensures k == |l.world.timers| ==> m.Some? && m.value.DoDetach?
    ensures k <= |l.world.timers|
    ensures k < |l.world.timers| ==>
              l.world.timers[k].issuedAt == l.world.ops && (m.Some? ==> !Disturbs(l, m.value))
  {
    if m.Some? {
      TimersPersist(limits, l, m.value, k);
    }
  }

  /**
   Main result: with a strictly increasing clock, a reconnect timer that closes
   its session was made by a detach after which nobody used the session, even
   if cancelled timers could still wake up.
   */
  lemma TimerClosesOnlyUndisturbed(limits: Limits, found: seq<Found>, states: seq<Registry>, events: seq<Event>,
                                   j: nat, id: string, k: nat) returns (i: nat)
    requires IsRun(limits, found, states, events) && j < |events|
    requires forall m | 0 <= m < j :: ClockAdvances(states[m], events[m])
    requires events[j] == Internal(id, DoExpire(k)) && Enabled(states[j], events[j]) && Expires(states[j].lives[id], k)
    ensures i < j && id in states[i].lives && k == |states[i].lives[id].world.timers|
    ensures events[i].DetachSession? && events[i].id == id && MoveOn(states[i], events[i], id).Some?
    ensures Undisturbed(states, events, id, i + 1, j)
  {
    RunTells(limits, found, states, events, j, id);
    i := IssuingDetach(limits, found, states, events, j, id, k);
  }

  /** Main result: the same for any clock at all, as long as the timer's cancellation was never requested. */
  lemma ArmedTimerClosesOnlyUndisturbed(limits: Limits, found: seq<Found>, states: seq<Registry>, events: seq<Event>,
                                        j: nat, id: string, k: nat) returns (i: nat)
    requires IsRun(limits, found, states, events) && j < |events|
    requires events[j] == Internal(id, DoExpire(k)) && Enabled(states[j], events[j]) && Expires(states[j].lives[id], k)
    requires states[j].lives[id].world.timers[k].state == Armed
    ensures i < j && id in states[i].lives && k == |states[i].lives[id].world.timers|
    ensures events[i].DetachSession? && events[i].id == id && MoveOn(states[i], events[i], id).Some?
    ensures Undisturbed(states, events, id, i + 1, j)
  {
    RunInv(limits, found, states, events, j);
    assert LifeOk(limits, states[j].lives[id]);
    i := IssuingDetach(limits, found, states, events, j, id, k);
  }

  /** Conversely a session with a deadline has a timer that will close it; a detached one without never times out. */
  lemma DeadlineWillClose(limits: Limits, found: seq<Found>, states: seq<Registry>, events: seq<Event>, j: nat,
                          id: string)
    requires IsRun(limits, found, states, events) && j < |states| && id in states[j].lives
    ensures var l := states[j].lives[id];
            && (l.session.deadline.Some? <==>
                  exists k :: 0 <= k < |l.world.timers| && l.world.timers[k].state == Armed && Expires(l, k))
            && forall k :: 0 <= k < |l.world.timers| && l.session.deadline.None? ==> !Expires(l, k)
  {
    RunInv(limits, found, states, events, j);
    var l := states[j].lives[id];
    assert LifeOk(limits, l);
    if l.session.deadline.Some? {
      assert Expires(l, l.session.timer.value);
    }
  }

  // ---- sessions that never time out -----------------------------------

  /** A detached session lacks a deadline exactly while nothing has used it. */
  predicate DeadlineFits(l: Life) {
    l.session.status == Detached ==> (l.session.deadline.None? <==> l.world.ops == 0)
  }

  lemma MoveFits(limits: Limits, l: Life, m: Move)
    requires LifeOk(limits, l) && Possible(l, m) && DeadlineFits(l)
    ensures DeadlineFits(Step(limits, l, m))
    ensures !Disturbs(l, m) ==> Step(limits, l, m).session.status == l.session.status
  {
  }

  lemma RunStepRemains(limits: Limits, found: seq<Found>, states: seq<Registry>, events: seq<Event>, j: nat, id: string)
    requires IsRun(limits, found, states, events) && j < |events| && id in states[j].lives
    ensures id in states[j + 1].lives
  {
    RunStep(limits, found, states, events, j, id);
  }

  lemma {:induction false} LivesRemain(limits: Limits, found: seq<Found>, states: seq<Registry>, events: seq<Event>,
                                       i: nat, j: nat, id: string)
    requires IsRun(limits, found, states, events) && i <= j < |states| && id in states[i].lives
    ensures id in states[j].lives
    decreases j
  {
    if i < j {
      LivesRemain(limits, found, states, events, i, j - 1, id);
      RunStepRemains(limits, found, states, events, j - 1, id);
    }
  }

  /** What the operation count of a session says about the run so far. */
  ghost predicate CountFits(states: seq<Registry>, events: seq<Event>, j: nat, id: string)
    requires 0 < |states| == |events| + 1 && j < |states| && id in states[j].lives
  {
    var l := states[j].lives[id];
    && DeadlineFits(l)
    && (l.world.ops == 0 <==> Undisturbed(states, events, id, 0, j))
    && (l.world.ops == 0 && id !in states[0].lives ==> l.session.status == Created)
  }

  lemma CountFitsNew(limits: Limits, found: seq<Found>, states: seq<Registry>, events: seq<Event>, j: nat, id: string)
    requires IsRun(limits, found, states, events) && j < |events|
    requires id !in states[j].lives && id in states[j + 1].lives
    ensures CountFits(states, events, j + 1, id)
  {
    RunStep(limits, found, states, events, j, id);
    forall m | 0 <= m <= j ensures id !in states[m].lives {
      if id in states[m].lives {
        LivesRemain(limits, found, states, events, m, j, id);
      }
    }
  }

  /** One step's share of the count. */
  predicate UsedBy(l: Life, m: Option<Move>) {
    m.Some? && Possible(l, m.value) && Disturbs(l, m.value)
  }

  lemma MovedFits(limits: Limits, l: Life, m: Option<Move>, t: Life)
    requires LifeOk(limits, l) && Moved(limits, l, m, t) && DeadlineFits(l)
    ensures DeadlineFits(t) && t.world.ops == l.world.ops + (if UsedBy(l, m) then 1 else 0)
    ensures !UsedBy(l, m) ==> t.session.status == l.session.status
  {
    if m.Some? {
      MoveFits(limits, l, m.value);
      TimersPersist(limits, l, m.value, 0);
    }
  }

  lemma UndisturbedOne(states: seq<Registry>, events: seq<Event>, id: string, j: nat)
    requires j < |events| < |states| && id in states[j].lives
    ensures Undisturbed(states, events, id, 0, j + 1) <==>
              Undisturbed(states, events, id, 0, j) && !UsedBy(states[j].lives[id], MoveOn(states[j], events[j], id))
  {
  }

  lemma CountFitsOn(limits: Limits, found: seq<Found>, states: seq<Registry>, events: seq<Event>, j: nat, id: string)
    requires IsRun(limits, found, states, events) && j < |events|
    requires id in states[j].lives && CountFits(states, events, j, id)
    ensures id in states[j + 1].lives && CountFits(states, events, j + 1, id)
  {
    RunStep(limits, found, states, events, j, id);
    MovedFits(limits, states[j].lives[id], MoveOn(states[j], events[j], id), states[j + 1].lives[id]);
    UndisturbedOne(states, events, id, j);
  }

  lemma {:induction false} RunFits(limits: Limits, found: seq<Found>, states: seq<Registry>, events: seq<Event>,
                                   j: nat, id: string)
    requires IsRun(limits, found, states, events) && j < |states| && id in states[j].lives
    ensures CountFits(states, events, j, id)
  {
    if j == 0 {
      RecoveredFacts(limits, found, id);
    } else if id in states[j - 1].lives {
      RunFits(limits, found, states, events, j - 1, id);
      CountFitsOn(limits, found, states, events, j - 1, id);
    } else {
      CountFitsNew(limits, found, states, events, j - 1, id);
    }
  }

  /**
   Main result: a detached session has no reconnect deadline, and so never
   times out, if and only if it was recovered and nothing has used it since.
   */
  lemma NoDeadlineExactly(limits: Limits, found: seq<Found>, states: seq<Registry>, events: seq<Event>,
                          j: nat, id: string)
    requires IsRun(limits, found, states, events) && j < |states| && id in states[j].lives
    requires states[j].lives[id].session.status == Detached
    ensures states[j].lives[id].session.deadline.None? <==>
              id in states[0].lives && Undisturbed(states, events, id, 0, j)
    ensures states[j].lives[id].session.deadline.None? ==>
              forall k | 0 <= k < |states[j].lives[id].world.timers| :: !Expires(states[j].lives[id], k)
  {
    RunFits(limits, found, states, events, j, id);
  }

  // ---- delivery -------------------------------------------------------

  /** Queues only receive, the log only grows, and what a queue starts from never changes. */
  ghost predicate QueueKept(l: Life, t: Life, q: nat)
    requires q < |l.world.queues|
  {
    && q < |t.world.queues|
    && t.world.queues[q].from == l.world.queues[q].from
    && |l.world.log| <= |t.world.log| && t.world.log[..|l.world.log|] == l.world.log
    && t.world.seeded == l.world.seeded
  }

  lemma MoveKeepsQueue(limits: Limits, l: Life, m: Move, q: nat)
    requires Possible(l, m) && q < |l.world.queues|
    ensures QueueKept(l, Step(limits, l, m), q)
  {
  }

  lemma MovedKeepsQueue(limits: Limits, l: Life, m: Option<Move>, t: Life, q: nat)
    requires Moved(limits, l, m, t) && q < |l.world.queues|
    ensures QueueKept(l, t, q)
  {
    if m.Some? {
      MoveKeepsQueue(limits, l, m.value, q);
    }
  }

  lemma RunStepKeepsQueue(limits: Limits, found: seq<Found>, states: seq<Registry>, events: seq<Event>,
                          j: nat, id: string, q: nat)
    requires IsRun(limits, found, states, events) && j < |events|
    requires id in states[j].lives && q < |states[j].lives[id].world.queues|
    ensures id in states[j + 1].lives && QueueKept(states[j].lives[id], states[j + 1].lives[id], q)
  {
    RunStep(limits, found, states, events, j, id);
    MovedKeepsQueue(limits, states[j].lives[id], MoveOn(states[j], events[j], id), states[j + 1].lives[id], q);
  }

  lemma {:induction false} RunKeepsQueue(limits: Limits, found: seq<Found>, states: seq<Registry>, events: seq<Event>,
                                         i: nat, j: nat, id: string, q: nat)
    requires IsRun(limits, found, states, events) && i <= j < |states|
    requires id in states[i].lives && q < |states[i].lives[id].world.queues|
    ensures id in states[j].lives && QueueKept(states[i].lives[id], states[j].lives[id], q)
    decreases j
  {
    if i < j {
      RunKeepsQueue(limits, found, states, events, i, j - 1, id, q);
      RunStepKeepsQueue(limits, found, states, events, j - 1, id, q);
    }
  }

  /** The outputs recorded while a queue was current. */
  function SinceAttach(w: World, q: nat, from: nat): seq<Option<Text>>
    requires q < |w.queues|
  {
    var end := if w.queues[q].until.Some? then w.queues[q].until.value else |w.log|;
    if from <= end <= |w.log| then w.log[from..end] else []
  }

  lemma RunAttach(limits: Limits, found: seq<Found>, states: seq<Registry>, events: seq<Event>, i: nat, id: string)
    requires IsRun(limits, found, states, events) && i < |events|
    requires events[i].AttachSession? && events[i].id == id && Admit(states[i], id, events[i].owner).None?
    ensures LifeOk(limits, states[i].lives[id])
    ensures id in states[i + 1].lives && states[i + 1].lives[id] == Attach(states[i].lives[id], events[i].now)
  {
    RunStep(limits, found, states, events, i, id);
  }

  /**
   Main result: the queue an attach returns receives the history retained at
   that attach followed by every later output, in order and exactly once,
   until it is replaced or cleared. Only the last of these may still be in the
   hands of a suspended handler, and it can only be lost to a close.
   */
  lemma DeliveredExactlyOnce(limits: Limits, found: seq<Found>, states: seq<Registry>, events: seq<Event>,
                             i: nat, j: nat, id: string)
    requires IsRun(limits, found, states, events) && i < j < |states|
    requires events[i].AttachSession? && events[i].id == id && Admit(states[i], id, events[i].owner).None?
    ensures id in states[j].lives
    ensures var before, w, q := states[i].lives[id], states[j].lives[id].world, |states[i].lives[id].world.queues|;
            && q < |w.queues|
            && OutputsOf(w.queues[q].events) + HeldFor(w.handler, q) + HeldFor(w.lost, q)
               == Wrapped(before.session.history.chunks) + SinceAttach(w, q, |before.world.log|)
            && (w.handler.None? || w.lost.None?)
            && (w.lost.Some? ==> w.closeBegun && w.stage == Stopped)
            && (w.queues[q].until.None? <==> states[j].lives[id].session.queue == Some(q))
  {
    var before, q := states[i].lives[id], |states[i].lives[id].world.queues|;
    RunAttach(limits, found, states, events, i, id);
    RunKeepsQueue(limits, found, states, events, i + 1, j, id, q);
    RunInv(limits, found, states, events, j);
    QueueGetsDue(limits, before, events[i].now, states[j].lives[id]);
  }

  lemma QueueGetsDue(limits: Limits, before: Life, now: int, l: Life)
    requires LifeOk(limits, before) && LifeOk(limits, l)
    requires QueueKept(Attach(before, now), l, |before.world.queues|)
    ensures var q := |before.world.queues|;
            OutputsOf(l.world.queues[q].events) + HeldFor(l.world.handler, q) + HeldFor(l.world.lost, q)
            == Wrapped(before.session.history.chunks) + SinceAttach(l.world, q, |before.world.log|)
  {
    var q := |before.world.queues|;
    assert QueueOk(l.world.queues[q], q, l.session.queue, |l.world.log|);
    assert Delivered(limits.historyMax, l.world.queues[q], q, l.world);
    assert l.world.log[..|before.world.log|] == before.world.log;
  }

  /** Once an output is lost it stays lost, and only the cancellation of the reader that holds it loses it. */
  lemma MoveLoses(limits: Limits, l: Life, m: Move)
    requires LifeOk(limits, l) && Possible(l, m)
    ensures var t := Step(limits, l, m);
            t.world.lost == if m.DoReaderCancelled? && l.world.handler.Some? then l.world.handler else l.world.lost
    ensures l.world.lost.Some? ==> !m.DoReaderCancelled?
  {
  }

  /** At k the reader is cancelled while its handler holds the output. */
  ghost predicate LosesAt(states: seq<Registry>, events: seq<Event>, k: nat, id: string, h: Handler)
    requires k < |events| < |states|
  {
    && id in states[k].lives && events[k] == Internal(id, DoReaderCancelled)
    && states[k].lives[id].world.handler == Some(h)
  }

  lemma RunStepLoses(limits: Limits, found: seq<Found>, states: seq<Registry>, events: seq<Event>,
                     k: nat, id: string, h: Handler)
    requires IsRun(limits, found, states, events) && k < |events| && id in states[k].lives
    ensures id in states[k + 1].lives
    ensures states[k + 1].lives[id].world.lost == Some(h) <==>
              LosesAt(states, events, k, id, h) || states[k].lives[id].world.lost == Some(h)
  {
    RunStep(limits, found, states, events, k, id);
    CancelMove(states[k], events[k], id);
    MovedLoses(limits, states[k].lives[id], MoveOn(states[k], events[k], id), states[k + 1].lives[id], h);
  }

  lemma CancelMove(s: Registry, e: Event, id: string)
    requires Enabled(s, e)
    ensures MoveOn(s, e, id) == Some(DoReaderCancelled) <==> e == Internal(id, DoReaderCancelled)
  {
  }

  lemma MovedLoses(limits: Limits, l: Life, m: Option<Move>, t: Life, h: Handler)
    requires LifeOk(limits, l) && Moved(limits, l, m, t)
    ensures t.world.lost == Some(h) <==>
              (m == Some(DoReaderCancelled) && l.world.handler == Some(h)) || l.world.lost == Some(h)
  {
    if m.Some? {
      MoveLoses(limits, l, m.value);
    }
  }

  /**
   Main result: an output is lost to the queue it was captured for if and only
   if a close cancelled the bridge's reader while the handler held that output.
   */
  lemma {:induction false} OutputLostExactly(limits: Limits, found: seq<Found>, states: seq<Registry>,
                                             events: seq<Event>, j: nat, id: string, h: Handler)
    requires IsRun(limits, found, states, events) && j < |states| && id in states[j].lives
    ensures states[j].lives[id].world.lost == Some(h) <==>
              exists k :: 0 <= k < j && LosesAt(states, events, k, id, h)
  {
    if j == 0 {
      RecoveredFacts(limits, found, id);
    } else if id in states[j - 1].lives {
      OutputLostExactly(limits, found, states, events, j - 1, id, h);
      RunStepLoses(limits, found, states, events, j - 1, id, h);
    } else {
      NotLostYet(limits, found, states, events, j - 1, id);
    }
  }

  lemma NotLostYet(limits: Limits, found: seq<Found>, states: seq<Registry>, events: seq<Event>, j: nat, id: string)
    requires IsRun(limits, found, states, events) && j < |events|
    requires id !in states[j].lives && id in states[j + 1].lives
    ensures states[j + 1].lives[id].world.lost == None
    ensures forall k :: 0 <= k <= j ==> id !in states[k].lives
  {
    RunStep(limits, found, states, events, j, id);
    forall k | 0 <= k <= j ensures id !in states[k].lives {
      if id in states[k].lives {
        LivesRemain(limits, found, states, events, k, j, id);
      }
    }
  }

  /**
   Main result: the queue an attach returned has received everything due to it
   unless a suspended handler holds an output for it, or a close cancelled the
   reader while its handler held one: in these cases, and no others, it lacks
   an output that was recorded for it.
   */
  lemma QueueCompleteExactly(limits: Limits, found: seq<Found>, states: seq<Registry>, events: seq<Event>,
                             i: nat, j: nat, id: string)
    requires IsRun(limits, found, states, events) && i < j < |states|
    requires events[i].AttachSession? && events[i].id == id && Admit(states[i], id, events[i].owner).None?
    ensures id in states[j].lives
    ensures var before, w, q := states[i].lives[id], states[j].lives[id].world, |states[i].lives[id].world.queues|;
            && q < |w.queues|
            && (OutputsOf(w.queues[q].events)
                == Wrapped(before.session.history.chunks) + SinceAttach(w, q, |before.world.log|)
                <==> HeldFor(w.handler, q) == []
                     && !exists k, h :: 0 <= k < j && LosesAt(states, events, k, id, h) && h.queue == Some(q))
  {
    DeliveredExactlyOnce(limits, found, states, events, i, j, id);
    var w, q := states[j].lives[id].world, |states[i].lives[id].world.queues|;
    if w.lost.Some? {
      OutputLostExactly(limits, found, states, events, j, id, w.lost.value);
    }
    if k, h :| 0 <= k < j && LosesAt(states, events, k, id, h) && h.queue == Some(q) {
      OutputLostExactly(limits, found, states, events, j, id, h);
    }
  }

  /** What reaches the log while a queue is current also reaches the history, so a later attach replays it. */
  lemma HistoryNeverMisses(limits: Limits, found: seq<Found>, states: seq<Registry>, events: seq<Event>, j: nat,
                           id: string)
    requires IsRun(limits, found, states, events) && j < |states| && id in states[j].lives && limits.historyMax > 0
    ensures var l := states[j].lives[id];
            && l.session.history.chunks == Fitting(limits.historyMax, Effective(Texts(l.world.log)))
            && l.session.history.bytes == |Encode(Join(l.session.history.chunks))| <= limits.historyMax
            && (l.session.history.truncated <==>
                  l.world.seeded || |l.session.history.chunks| < |Effective(Texts(l.world.log))|)
  {
    RunInv(limits, found, states, events, j);
    var l := states[j].lives[id];
    assert LifeOk(limits, l);
    CounterIsOutputSize(limits.historyMax, Texts(l.world.log), l.world.seeded);
  }

  // ---- two consequences of reopening ----------------------------------

  function Steps(limits: Limits, l: Life, moves: seq<Move>): Option<Life>
    decreases |moves|
  {
    if moves == [] then Some(l)
    else if !Possible(l, moves[0]) then None
    else Steps(limits, Step(limits, l, moves[0]), moves[1..])
  }

  /**
   A close is still shutting the bridge down when the client attaches again: an
   output recorded after that attach can be lost to it, although the queue is
   current and no handler is left to put it there.
   */
  lemma CloseRaceLosesOutput(limits: Limits, id: string, group: string, owner: string, text: Text)
    ensures var moves := [DoBridgeStarted, DoAttach(0), DoClose, DoAttach(1), DoHearOutput(Some(text)),
                          DoReaderCancelled];
            var end := Steps(limits, NewLife(id, group, owner), moves);
            && end.Some?
            && end.value.session.status == Attached && end.value.session.queue == Some(1)
            && end.value.world.log == [Some(text)]
            && end.value.world.handler == None && |end.value.world.queues| == 2
            && OutputsOf(end.value.world.queues[1].events) == []
  {
    var l0 := NewLife(id, group, owner);
    var l1 := BridgeStarted(l0);
    var l2 := Attach(l1, 0);
    var l3 := Close(l2);
    var l4 := Attach(l3, 1);
    var l5 := HearOutput(limits.historyMax, l4, Some(text));
    var l6 := ReaderCancelled(l5);
    assert Steps(limits, l5, [DoReaderCancelled]) == Some(l6);
    assert Steps(limits, l4, [DoHearOutput(Some(text)), DoReaderCancelled]) == Some(l6);
    assert Steps(limits, l3, [DoAttach(1), DoHearOutput(Some(text)), DoReaderCancelled]) == Some(l6);
    assert Steps(limits, l2, [DoClose, DoAttach(1), DoHearOutput(Some(text)), DoReaderCancelled]) == Some(l6);
    assert Steps(limits, l1,
                 [DoAttach(0), DoClose, DoAttach(1), DoHearOutput(Some(text)), DoReaderCancelled]) == Some(l6);
  }

  // ---- sessions that stay silent --------------------------------------

  /** The service has dropped the session, or its reader has stopped although it has a bridge. */
  predicate Dead(l: Life) {
    !l.indexed || (l.world.stage == Stopped && l.session.hasBridge)
  }

  /** No move brings a dead session back or records an output for it. */
  lemma StoppedForGood(limits: Limits, l: Life, m: Move)
    requires LifeOk(limits, l) && Possible(l, m) && Dead(l)
    ensures Dead(Step(limits, l, m)) && Step(limits, l, m).world.log == l.world.log
    ensures l.world.stage == Stopped && l.session.hasBridge ==>
              Step(limits, l, m).world.stage == Stopped && Step(limits, l, m).session.hasBridge
  {
  }

  lemma RunStepDead(limits: Limits, found: seq<Found>, states: seq<Registry>, events: seq<Event>, j: nat, id: string)
    requires IsRun(limits, found, states, events) && j < |events| && id in states[j].lives && Dead(states[j].lives[id])
    ensures id in states[j + 1].lives && Dead(states[j + 1].lives[id])
    ensures states[j + 1].lives[id].world.log == states[j].lives[id].world.log
  {
    RunStep(limits, found, states, events, j, id);
    if MoveOn(states[j], events[j], id).Some? {
      StoppedForGood(limits, states[j].lives[id], MoveOn(states[j], events[j], id).value);
    }
  }

  lemma {:induction false} RunDead(limits: Limits, found: seq<Found>, states: seq<Registry>, events: seq<Event>,
                                   i: nat, j: nat, id: string)
    requires IsRun(limits, found, states, events) && i <= j < |states|
    requires id in states[i].lives && Dead(states[i].lives[id])
    ensures id in states[j].lives && Dead(states[j].lives[id])
    ensures states[j].lives[id].world.log == states[i].lives[id].world.log
    decreases j
  {
    if i < j {
      RunDead(limits, found, states, events, i, j - 1, id);
      RunStepDead(limits, found, states, events, j - 1, id);
    }
  }

  /** A run that begins with another one. */
  ghost predicate Continues(limits: Limits, found: seq<Found>, states: seq<Registry>, events: seq<Event>,
                            longer: seq<Registry>, more: seq<Event>) {
    && IsRun(limits, found, longer, more)
    && |events| <= |more| && more[..|events|] == events
    && |states| <= |longer| && longer[..|states|] == states
  }

  lemma Extend(limits: Limits, found: seq<Found>, states: seq<Registry>, events: seq<Event>, e: Event)
    requires IsRun(limits, found, states, events) && Enabled(states[|events|], e)
    ensures IsRun(limits, found, states + [Apply(limits, states[|events|], e)], events + [e])
  {
    var longer, more := states + [Apply(limits, states[|events|], e)], events + [e];
    forall i {:trigger more[i]} | 0 <= i < |more|
      ensures Enabled(longer[i], more[i]) && longer[i + 1] == Apply(limits, longer[i], more[i])
    {
      if i < |events| {
        assert more[i] == events[i];
        assert Enabled(states[i], events[i]) && states[i + 1] == Apply(limits, states[i], events[i]);
      }
    }
  }

  lemma TargetMoves(limits: Limits, s: Registry, e: Event, id: string, m: Move)
    requires Enabled(s, e) && TargetOf(s, e) == Target(id, m) && id in s.lives && Possible(s.lives[id], m)
    ensures id in Apply(limits, s, e).lives && Apply(limits, s, e).lives[id] == Step(limits, s.lives[id], m)
  {
  }

  lemma ContinueBy(limits: Limits, found: seq<Found>, states: seq<Registry>, events: seq<Event>,
                   first: seq<Registry>, past: seq<Event>, e: Event)
    requires Continues(limits, found, first, past, states, events) && Enabled(states[|events|], e)
    ensures Continues(limits, found, first, past, states + [Apply(limits, states[|events|], e)], events + [e])
  {
    Extend(limits, found, states, events, e);
  }

  /** One more event of a session: the run goes on, and the session has made the move. */
  lemma GoOn(limits: Limits, found: seq<Found>, states: seq<Registry>, events: seq<Event>,
             first: seq<Registry>, past: seq<Event>, id: string, e: Event, m: Move)
      returns (longer: seq<Registry>, more: seq<Event>)
    requires Continues(limits, found, first, past, states, events) && id in states[|events|].lives
    requires Enabled(states[|events|], e) && TargetOf(states[|events|], e) == Target(id, m)
    requires Possible(states[|events|].lives[id], m)
    ensures Continues(limits, found, first, past, longer, more) && id in longer[|more|].lives
    ensures longer[|more|].lives[id] == Step(limits, states[|events|].lives[id], m)
    ensures LifeOk(limits, longer[|more|].lives[id])
  {
    TargetMoves(limits, states[|events|], e, id, m);
    ContinueBy(limits, found, states, events, first, past, e);
    longer, more := states + [Apply(limits, states[|events|], e)], events + [e];
    RunInv(limits, found, longer, more, |more|);
  }

  /** A session whose reader runs can record another output. */
  lemma RunningRecords(limits: Limits, found: seq<Found>, states: seq<Registry>, events: seq<Event>,
                       first: seq<Registry>, past: seq<Event>, id: string)
      returns (longer: seq<Registry>, more: seq<Event>)
    requires Continues(limits, found, first, past, states, events) && id in states[|events|].lives
    requires states[|events|].lives[id].indexed && states[|events|].lives[id].world.stage == Running
    ensures Continues(limits, found, first, past, longer, more) && id in longer[|more|].lives
    ensures |longer[|more|].lives[id].world.log| == |states[|events|].lives[id].world.log| + 1
  {
    longer, more := states, events;
    if states[|events|].lives[id].world.handler.Some? {
      longer, more := GoOn(limits, found, longer, more, first, past, id, Internal(id, DoPutOutput), DoPutOutput);
    }
    longer, more := GoOn(limits, found, longer, more, first, past, id,
                         Internal(id, DoHearOutput(None)), DoHearOutput(None));
  }

  /** Whatever state a session is in that is not dead, it can come to record another output. */
  lemma AliveRecords(limits: Limits, found: seq<Found>, states: seq<Registry>, events: seq<Event>, id: string)
      returns (longer: seq<Registry>, more: seq<Event>)
    requires IsRun(limits, found, states, events) && id in states[|events|].lives && !Dead(states[|events|].lives[id])
    ensures Continues(limits, found, states, events, longer, more) && id in longer[|more|].lives
    ensures |longer[|more|].lives[id].world.log| > |states[|events|].lives[id].world.log|
  {
    longer, more := states, events;
    RunInv(limits, found, states, events, |events|);
    var l := states[|events|].lives[id];
    assert LifeOk(limits, l);
    if !l.session.hasBridge {
      var now := states[|events|].clock + 1;
      longer, more := GoOn(limits, found, longer, more, states, events, id,
                           AttachSession(id, l.session.owner, now), DoAttach(now));
    }
    if longer[|more|].lives[id].world.stage.Starting? {
      longer, more := GoOn(limits, found, longer, more, states, events, id,
                           Internal(id, DoBridgeStarted), DoBridgeStarted);
    }
    longer, more := RunningRecords(limits, found, longer, more, states, events, id);
  }

  /**
   Main result: after a given run, a session will never record another output,
   however the run goes on, if and only if it is dead then: dropped, or with a
   bridge whose reader has stopped, which attaching does not start again.
   */
  lemma SilentExactly(limits: Limits, found: seq<Found>, states: seq<Registry>, events: seq<Event>, id: string)
    requires IsRun(limits, found, states, events) && id in states[|events|].lives
    ensures Dead(states[|events|].lives[id]) <==>
              forall longer: seq<Registry>, more: seq<Event> | Continues(limits, found, states, events, longer, more) ::
                && id in longer[|more|].lives
                && longer[|more|].lives[id].world.log == states[|events|].lives[id].world.log
  {
    if Dead(states[|events|].lives[id]) {
      forall longer: seq<Registry>, more: seq<Event> | Continues(limits, found, states, events, longer, more)
        ensures id in longer[|more|].lives
        ensures longer[|more|].lives[id].world.log == states[|events|].lives[id].world.log
      {
        assert longer[|events|] == longer[..|states|][|events|];
        RunDead(limits, found, longer, more, |events|, |more|, id);
      }
    } else {
      var longer, more := AliveRecords(limits, found, states, events, id);
    }
  }
}
