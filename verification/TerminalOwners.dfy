/**
 Who may change a terminal session, what its record shows after each event,
 and which sessions a restart recovers.
 */
module TerminalOwners {
  import opened Wrappers
  import opened Strings
  import opened OutputHistory
  import opened TerminalLife
  import opened TerminalRegistry
  import opened TerminalRuns

  // ---- who may change a session ---------------------------------------

  /** The session is over, so a new one may take its place. */
  predicate Over(l: Life) {
    l.session.status == Closed || l.session.status == Exited
  }

  /**
   An entry point is called for this indexed session: by its owner, by force,
   or to replace it once it is over.
   */
  predicate Addressed(l: Life, e: Event) {
    && l.indexed
    && match e
       case AttachSession(id, owner, _) => id == l.session.id && owner == l.session.owner
       case DetachSession(id, owner, _) => id == l.session.id && owner == l.session.owner
       case CloseSession(id, owner) => id == l.session.id && owner == l.session.owner
       case CloseByGroup(group, owner) => group == l.session.group && owner == l.session.owner
       case ForceClose(group) => group == l.session.group
       case CreateSession(group, _, mode, _) => group == l.session.group && mode == Container && Over(l)
       case Internal(_, _) => false
  }

  /** Its own timers and its bridge. */
  predicate FromWithin(l: Life, e: Event) {
    e.Internal? && e.id == l.session.id
  }

  /** Names never change, and nobody else changes anything. */
  lemma OthersChangeNothing(limits: Limits, s: Registry, e: Event, id: string)
    requires Inv(limits, s) && Enabled(s, e) && id in s.lives
    ensures id in Apply(limits, s, e).lives && SameName(s.lives[id], Apply(limits, s, e).lives[id])
    ensures !Addressed(s.lives[id], e) && !FromWithin(s.lives[id], e) ==> Apply(limits, s, e).lives[id] == s.lives[id]
  {
    EventIsMove(limits, s, e, id);
    var m := MoveOn(s, e, id);
    if m.Some? {
      StepKeepsNames(limits, s.lives[id], m.value);
      MoveIsAddressed(s, e, id);
    }
  }

  lemma MoveIsAddressed(s: Registry, e: Event, id: string)
    requires MapsAgree(s.groups, s.lives) && Enabled(s, e) && id in s.lives && MoveOn(s, e, id).Some?
    ensures Addressed(s.lives[id], e) || FromWithin(s.lives[id], e)
  {
    assert s.lives[id].session.id == id;
    if e.CreateSession? {
      DropIsAddressed(s, e, id);
    }
  }

  lemma DropIsAddressed(s: Registry, e: Event, id: string)
    requires MapsAgree(s.groups, s.lives) && id in s.lives && e.CreateSession? && Replaced(s, e) == Some(id)
    ensures Addressed(s.lives[id], e)
  {
    var found := s.groups[e.group];
    assert s.lives[found].session.id == found && s.lives[found].indexed && s.lives[found].session.group == e.group;
  }

  /** The event neither addresses the session nor comes from within. */
  predicate Uninvolved(s: Registry, e: Event, id: string) {
    id in s.lives ==> !Addressed(s.lives[id], e) && !FromWithin(s.lives[id], e)
  }

  /** None of the events from i up to j involves the session. */
  ghost predicate NobodyActs(states: seq<Registry>, events: seq<Event>, id: string, i: nat, j: nat)
    requires j <= |events| < |states|
  {
    forall k {:trigger events[k]} | i <= k < j :: Uninvolved(states[k], events[k], id)
  }

  /** Main result: over any run, a session is changed only by its owner, by force, by its replacement or from within. */
  lemma {:induction false} OnlyTheOwnerChanges(limits: Limits, found: seq<Found>, states: seq<Registry>,
                                               events: seq<Event>, i: nat, j: nat, id: string)
    requires IsRun(limits, found, states, events) && i <= j < |states| && id in states[i].lives
    requires NobodyActs(states, events, id, i, j)
    ensures id in states[j].lives && states[j].lives[id] == states[i].lives[id]
    decreases j
  {
    if i < j {
      NobodyActedBefore(states, events, id, i, j);
      OnlyTheOwnerChanges(limits, found, states, events, i, j - 1, id);
      RunStepOthers(limits, found, states, events, i, j - 1, id);
    }
  }

  lemma NobodyActedBefore(states: seq<Registry>, events: seq<Event>, id: string, i: nat, j: nat)
    requires 0 < j <= |events| < |states| && NobodyActs(states, events, id, i, j)
    ensures NobodyActs(states, events, id, i, j - 1)
  {
  }

  lemma RunStepOthers(limits: Limits, found: seq<Found>, states: seq<Registry>, events: seq<Event>, i: nat, j: nat,
                      id: string)
    requires IsRun(limits, found, states, events) && i <= j < |events| && id in states[j].lives
    requires NobodyActs(states, events, id, i, j + 1)
    ensures id in states[j + 1].lives && states[j + 1].lives[id] == states[j].lives[id]
  {
    assert Enabled(states[j], events[j]) && states[j + 1] == Apply(limits, states[j], events[j]);
    RunInv(limits, found, states, events, j);
    OthersChangeNothing(limits, states[j], events[j], id);
  }

  // ---- what the record shows ------------------------------------------

  /** The bridge after an event: whether its reader runs, and whether a close has begun to shut it down. */
  predicate BridgeIs(t: Life, stage: Stage, closeBegun: bool) {
    t.world.stage == stage && t.world.closeBegun == closeBegun
  }

  /** What an entry point that is let through makes of the record, and of the bridge. */
  predicate RecordAfterCall(limits: Limits, l: Life, e: Event, t: Life)
    requires Addressed(l, e)
  {
    match e
    case AttachSession(_, _, now) =>
      && t.indexed && BridgeIs(t, if l.session.hasBridge then l.world.stage else Starting(true), l.world.closeBegun)
      && t.session == l.session.(status := Attached, lastAttachedAt := Some(now), deadline := None, hasBridge := true,
                                 queue := Some(|l.world.queues|), timer := None)
    case DetachSession(_, _, now) =>
      && t.indexed && BridgeIs(t, l.world.stage, l.world.closeBegun)
      && t.session == l.session.(status := Detached, deadline := Some(now + limits.reconnect), queue := None,
                                 timer := Some(|l.world.timers|))
    case CreateSession(_, _, _, _) =>
      !t.indexed && BridgeIs(t, l.world.stage, l.world.closeBegun) && t.session == l.session.(timer := None)
    case _ =>
      && t.indexed && BridgeIs(t, l.world.stage, l.world.closeBegun || l.session.hasBridge)
      && t.session == l.session.(status := Closed, deadline := None, queue := None, timer := None)
  }

  /** What a timer or the bridge makes of it; only an output touches the history. */
  predicate RecordAfterMove(limits: Limits, l: Life, m: Move, t: Life)
    requires Possible(l, m)
  {
    && t.indexed == l.indexed
    && BridgeIs(t,
                match m case DoBridgeStarted => Running case DoStartFailed => Stopped case DoReaderCancelled => Stopped
                        case _ => l.world.stage,
                l.world.closeBegun || (m.DoExpire? && Expires(l, m.timer) && l.session.hasBridge))
    && match m
       case DoExpire(timer) =>
         t.session == if l.indexed && l.session.status == Detached
                         && l.session.deadline == Some(l.world.timers[timer].deadline)
                      then l.session.(status := Closed, deadline := None) else l.session
       case DoHearExit(_) =>
         t.session == if l.indexed then l.session.(status := Exited, deadline := None, timer := None) else l.session
       case DoStartFailed =>
         t.session == if l.indexed && l.world.stage == Starting(true)
                      then l.session.(status := Closed, deadline := None, hasBridge := false, queue := None)
                      else l.session
       case DoHearOutput(data) =>
         t.session == if l.indexed && data.Some?
                      then l.session.(history := Append(limits.historyMax, l.session.history, data.value))
                      else l.session
       case _ => t.session == l.session
  }

  /** A session after one event, whoever it came from. */
  predicate RecordAfter(limits: Limits, l: Life, e: Event, t: Life) {
    if Addressed(l, e) then RecordAfterCall(limits, l, e, t)
    else if FromWithin(l, e) then Possible(l, e.move) && RecordAfterMove(limits, l, e.move, t)
    else t == l
  }

  lemma AddressedMoves(limits: Limits, s: Registry, e: Event, id: string)
    requires Inv(limits, s) && Enabled(s, e) && id in s.lives && Addressed(s.lives[id], e)
    ensures MoveOn(s, e, id) == match e
                                case AttachSession(_, _, now) => Some(DoAttach(now))
                                case DetachSession(_, _, now) => Some(DoDetach(now))
                                case CreateSession(_, _, _, _) => Some(DoDrop)
                                case _ => Some(DoClose)
  {
    assert s.lives[id].session.id == id;
    assert s.groups[s.lives[id].session.group] == id;
  }

  lemma CallShows(limits: Limits, l: Life, e: Event, m: Move)
    requires Addressed(l, e) && Possible(l, m)
    requires m == match e
                  case AttachSession(_, _, now) => DoAttach(now)
                  case DetachSession(_, _, now) => DoDetach(now)
                  case CreateSession(_, _, _, _) => DoDrop
                  case _ => DoClose
    ensures RecordAfterCall(limits, l, e, Step(limits, l, m))
  {
  }

  lemma MoveShows(limits: Limits, l: Life, m: Move)
    requires Possible(l, m) && IsInternal(m)
    ensures RecordAfterMove(limits, l, m, Step(limits, l, m))
  {
  }

  lemma EventShows(limits: Limits, s: Registry, e: Event, id: string)
    requires Inv(limits, s) && Enabled(s, e) && id in s.lives
    ensures id in Apply(limits, s, e).lives && RecordAfter(limits, s.lives[id], e, Apply(limits, s, e).lives[id])
  {
    var l := s.lives[id];
    EventIsMove(limits, s, e, id);
    assert l.session.id == id;
    if Addressed(l, e) {
      AddressedMoves(limits, s, e, id);
      CallShows(limits, l, e, MoveOn(s, e, id).value);
    } else if FromWithin(l, e) {
      MoveShows(limits, l, e.move);
    } else {
      OthersChangeNothing(limits, s, e, id);
    }
  }

  /** Main result: so it is at every step of every run. */
  lemma EveryStepShows(limits: Limits, found: seq<Found>, states: seq<Registry>, events: seq<Event>, j: nat, id: string)
    requires IsRun(limits, found, states, events) && j < |events| && id in states[j].lives
    ensures id in states[j + 1].lives
    ensures RecordAfter(limits, states[j].lives[id], events[j], states[j + 1].lives[id])
  {
    assert Enabled(states[j], events[j]) && states[j + 1] == Apply(limits, states[j], events[j]);
    RunInv(limits, found, states, events, j);
    EventShows(limits, states[j], events[j], id);
  }

  // ---- what a restart recovers ----------------------------------------

  /** Two snapshots of the same workspace, or of the same session. */
  predicate Collide(a: Found, b: Found) {
    a.session.group == b.session.group || a.session.id == b.session.id
  }

  /** Of the snapshots found, these are the active ones that collide with no earlier one among them. */
  ghost predicate FirstOnes(found: seq<Found>, accepted: set<nat>) {
    && (forall i | i in accepted :: i < |found|)
    && (forall i: nat | i < |found| ::
          i in accepted <==>
            && !Over(Life(found[i].session, true, QUIET_WORLD))
            && forall k | k in accepted && k < i :: !Collide(found[k], found[i]))
  }

  /** A recovered session is detached without a deadline, and begins with the stored output. */
  predicate RecoveredFrom(max: int, f: Found, l: Life) {
    && l.indexed && l.session.id == f.session.id && l.session.group == f.session.group
    && l.session.owner == f.session.owner && l.session.status == Detached
    && l.session.lastAttachedAt == f.session.lastAttachedAt && l.session.deadline == None
    && !l.session.hasBridge && l.session.queue == None && l.session.timer == None
    && l.session.history == HistoryOf(max, [f.output], f.truncated)
    && l.world.log == [Some(f.output)]
  }

  ghost predicate ListsId(found: seq<Found>, accepted: set<nat>, id: string) {
    exists i :: i in accepted && i < |found| && found[i].session.id == id
  }

  ghost predicate ListsGroup(found: seq<Found>, accepted: set<nat>, group: string) {
    exists i :: i in accepted && i < |found| && found[i].session.group == group
  }

  /** An accepted snapshot is in both maps. */
  predicate RecoveredAs(max: int, s: Registry, f: Found) {
    && f.session.id in s.lives && RecoveredFrom(max, f, s.lives[f.session.id])
    && f.session.group in s.groups && s.groups[f.session.group] == f.session.id
  }

  /** The maps hold the accepted snapshots and nothing else. */
  ghost predicate RecoveredOk(max: int, s: Registry, found: seq<Found>, accepted: set<nat>) {
    && (forall i | i in accepted && i < |found| :: RecoveredAs(max, s, found[i]))
    && (forall id | id in s.lives :: ListsId(found, accepted, id))
    && (forall g | g in s.groups :: ListsGroup(found, accepted, g))
  }

  lemma RecoveredLifeIs(max: int, f: Found)
    ensures RecoveredFrom(max, f, RecoveredLife(max, f.session, f.output, f.truncated))
  {
    AppendRefines(max, [], f.truncated, f.output);
    assert [] + [f.output] == [f.output];
  }

  /** The tests of the recovery loop find out whether the next snapshot collides with an accepted one. */
  lemma TestsFindCollisions(max: int, s: Registry, found: seq<Found>, accepted: set<nat>, next: Found)
    requires RecoveredOk(max, s, found, accepted)
    ensures (forall k | k in accepted && k < |found| :: !Collide(found[k], next)) <==>
              next.session.group !in s.groups && next.session.id !in s.lives
  {
    if next.session.group in s.groups {
      assert ListsGroup(found, accepted, next.session.group);
    }
    if next.session.id in s.lives {
      assert ListsId(found, accepted, next.session.id);
    }
    forall k | k in accepted && k < |found| && Collide(found[k], next)
      ensures next.session.group in s.groups || next.session.id in s.lives
    {
      assert RecoveredAs(max, s, found[k]);
    }
  }

  /** More snapshots, accepted or not, take none off the lists. */
  lemma StillListed(found: seq<Found>, accepted: set<nat>, next: Found, more: set<nat>)
    requires accepted <= more
    ensures forall id | ListsId(found, accepted, id) :: ListsId(found + [next], more, id)
    ensures forall g | ListsGroup(found, accepted, g) :: ListsGroup(found + [next], more, g)
  {
    forall id | ListsId(found, accepted, id) ensures ListsId(found + [next], more, id) {
      var i :| i in accepted && i < |found| && found[i].session.id == id;
      assert (found + [next])[i] == found[i];
    }
    forall g | ListsGroup(found, accepted, g) ensures ListsGroup(found + [next], more, g) {
      var i :| i in accepted && i < |found| && found[i].session.group == g;
      assert (found + [next])[i] == found[i];
    }
  }

  lemma NextListed(found: seq<Found>, accepted: set<nat>, next: Found)
    requires |found| in accepted
    ensures ListsId(found + [next], accepted, next.session.id)
    ensures ListsGroup(found + [next], accepted, next.session.group)
  {
    assert (found + [next])[|found|] == next;
  }

  lemma InsertRecovered(max: int, s: Registry, found: seq<Found>, accepted: set<nat>, next: Found, l: Life)
    requires RecoveredOk(max, s, found, accepted) && RecoveredFrom(max, next, l)
    requires next.session.group !in s.groups && next.session.id !in s.lives
    ensures RecoveredOk(max, Insert(s, l), found + [next], accepted + {|found|})
  {
    StillListed(found, accepted, next, accepted + {|found|});
    NextListed(found, accepted + {|found|}, next);
    RowsStay(max, s, found, accepted, next, l);
  }

  lemma RowsStay(max: int, s: Registry, found: seq<Found>, accepted: set<nat>, next: Found, l: Life)
    requires forall i | i in accepted && i < |found| :: RecoveredAs(max, s, found[i])
    requires RecoveredFrom(max, next, l) && next.session.group !in s.groups && next.session.id !in s.lives
    ensures forall i | i in accepted + {|found|} && i < |found| + 1 ::
              RecoveredAs(max, Insert(s, l), (found + [next])[i])
  {
    assert RecoveredAs(max, Insert(s, l), next);
    forall i | i in accepted && i < |found| ensures RecoveredAs(max, Insert(s, l), found[i]) {
      OtherStays(max, s, l, found[i]);
    }
  }

  lemma OtherStays(max: int, s: Registry, l: Life, f: Found)
    requires RecoveredAs(max, s, f) && l.session.group !in s.groups && l.session.id !in s.lives
    ensures RecoveredAs(max, Insert(s, l), f)
  {
  }

  lemma SkipSnapshot(max: int, s: Registry, found: seq<Found>, accepted: set<nat>, next: Found)
    requires RecoveredOk(max, s, found, accepted) && |found| !in accepted
    ensures RecoveredOk(max, s, found + [next], accepted)
  {
    StillListed(found, accepted, next, accepted);
    assert forall i | i in accepted && i < |found| :: (found + [next])[i] == found[i];
  }

  lemma OneMoreFirst(found: seq<Found>, accepted: set<nat>, next: Found, takes: bool)
    requires FirstOnes(found, accepted)
    requires takes <==> !Over(Life(next.session, true, QUIET_WORLD))
                        && forall k | k in accepted && k < |found| :: !Collide(found[k], next)
    ensures FirstOnes(found + [next], if takes then accepted + {|found|} else accepted)
  {
    assert forall i: nat | i < |found| :: (found + [next])[i] == found[i];
  }

  /**
   Main result: a restart recovers exactly the active snapshots that come first
   for their workspace and id, each as a detached session with its own names,
   its stored output and no deadline.
   */
  lemma {:induction false} RecoversExactly(limits: Limits, found: seq<Found>) returns (accepted: set<nat>)
    ensures FirstOnes(found, accepted)
    ensures RecoveredOk(limits.historyMax, Recover(limits, found), found, accepted)
  {
    accepted := {};
    if found != [] {
      var init, next := found[..|found| - 1], found[|found| - 1];
      accepted := RecoversExactly(limits, init);
      assert found == init + [next];
      accepted := RecoversNext(limits, Recover(limits, init), init, accepted, next);
    }
  }

  lemma RecoversNext(limits: Limits, s: Registry, found: seq<Found>, accepted: set<nat>, next: Found)
      returns (more: set<nat>)
    requires FirstOnes(found, accepted) && RecoveredOk(limits.historyMax, s, found, accepted)
    ensures FirstOnes(found + [next], more)
    ensures RecoveredOk(limits.historyMax, RecoverNext(limits, s, next), found + [next], more)
  {
    var max := limits.historyMax;
    var takes := Active(next.session.status) && next.session.group !in s.groups && next.session.id !in s.lives;
    TestsFindCollisions(max, s, found, accepted, next);
    OneMoreFirst(found, accepted, next, takes);
    if takes {
      RecoveredLifeIs(max, next);
      InsertRecovered(max, s, found, accepted, next, RecoveredLife(max, next.session, next.output, next.truncated));
      more := accepted + {|found|};
    } else {
      SkipSnapshot(max, s, found, accepted, next);
      more := accepted;
    }
  }
}
