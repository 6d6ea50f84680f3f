/**
 The terminal session service of services/terminal_sessions.py: the two maps
 over its sessions, its entry points, and whole runs of them interleaved with
 timers and bridge events.
 */
module TerminalRegistry {
  import opened Wrappers
  import opened Strings
  import opened OutputHistory
  import opened TerminalLife

  // ---- state and steps ------------------------------------------------

  /**
   `groups` is the by-group map. The by-id map holds the indexed sessions of
   `lives`, which also remembers those already dropped. `clock` is the last
   time that was read.
   */
  datatype Registry = Registry(groups: map<string, string>, lives: map<string, Life>, clock: int)

  datatype Mode = Container | Host | OpenAI

  datatype Refusal = NotFound | NotOwner | Conflict | BackendDisabled | BackendUnsupported

  datatype Reply = Granted(session: Managed) | Refused(why: Refusal)

  function Known(s: Registry, id: string): bool {
    id in s.lives && s.lives[id].indexed
  }

  /** The checks that every entry point taking a session id makes first. */
  function Admit(s: Registry, id: string, owner: string): Option<Refusal> {
    if !Known(s, id) then Some(NotFound)
    else if s.lives[id].session.owner != owner then Some(NotOwner)
    else None
  }

  predicate Active(status: SessionStatus) {
    status != Closed && status != Exited
  }

  function Do(limits: Limits, s: Registry, id: string, m: Move): Registry
    requires id in s.lives && Possible(s.lives[id], m)
  {
    s.(lives := s.lives[id := Step(limits, s.lives[id], m)])
  }

  /** The session a workspace already has, if the map finds one. */
  function Existing(s: Registry, group: string): Option<Managed> {
    if group in s.groups && s.groups[group] in s.lives then Some(s.lives[s.groups[group]].session) else None
  }

  function RefuseMode(mode: Mode): Option<Refusal> {
    match mode
    case Container => None
    case Host => Some(BackendDisabled)
    case OpenAI => Some(BackendUnsupported)
  }

  /** `create_session` up to the start of the bridge; `id` is the drawn session id. */
  function Create(s: Registry, group: string, owner: string, mode: Mode, id: string): Registry {
    if RefuseMode(mode).Some? then s
    else
      match Existing(s, group)
      case None => Insert(s, NewLife(id, group, owner))
      case Some(prior) => if Active(prior.status) then s else Insert(Forget(s, prior), NewLife(id, group, owner))
  }

  function Forget(s: Registry, prior: Managed): Registry {
    if prior.id in s.lives
    then s.(groups := s.groups - {prior.group}, lives := s.lives[prior.id := Drop(s.lives[prior.id])])
    else s
  }

  function Insert(s: Registry, l: Life): Registry {
    s.(groups := s.groups[l.session.group := l.session.id], lives := s.lives[l.session.id := l])
  }

  /** A session as read back from disk. */
  datatype Found = Found(session: Managed, output: Text, truncated: bool)

  function Recover(limits: Limits, found: seq<Found>): Registry {
    if found == [] then Registry(map[], map[], 0)
    else
      RecoverNext(limits, Recover(limits, found[..|found| - 1]), found[|found| - 1])
  }

  /** A snapshot is passed over when its session had ended or its workspace or id is already taken. */
  function RecoverNext(limits: Limits, s: Registry, next: Found): Registry {
    if !Active(next.session.status) || next.session.group in s.groups || next.session.id in s.lives then s
    else Insert(s, RecoveredLife(limits.historyMax, next.session, next.output, next.truncated))
  }

  /** Entry points of the service, and what timers and bridges do on their own. */
  datatype Event =
    | CreateSession(group: string, owner: string, mode: Mode, newId: string)
    | AttachSession(id: string, owner: string, now: int)
    | DetachSession(id: string, owner: string, now: int)
    | CloseSession(id: string, owner: string)
    | CloseByGroup(group: string, owner: string)
    | ForceClose(group: string)
    | Internal(id: string, move: Move)

  predicate IsInternal(m: Move) {
    !m.DoAttach? && !m.DoDetach? && !m.DoClose? && !m.DoDrop?
  }

  /** A drawn session id has not been used before. */
  predicate Enabled(s: Registry, e: Event) {
    match e
    case CreateSession(_, _, _, newId) => newId !in s.lives
    case Internal(id, m) => id in s.lives && IsInternal(m) && Possible(s.lives[id], m)
    case AttachSession(_, _, _) => true
    case DetachSession(_, _, _) => true
    case CloseSession(_, _) => true
    case CloseByGroup(_, _) => true
    case ForceClose(_) => true
  }

  datatype Target = NoTarget | Target(id: string, move: Move)

  function TargetById(s: Registry, id: string, owner: string, m: Move): Target {
    if Admit(s, id, owner).None? then Target(id, m) else NoTarget
  }

  /** The session an event reaches once its checks have passed, and what it does to it. */
  function TargetOf(s: Registry, e: Event): Target {
    match e
    case CreateSession(_, _, _, _) => NoTarget
    case AttachSession(id, owner, now) => TargetById(s, id, owner, DoAttach(now))
    case DetachSession(id, owner, now) => TargetById(s, id, owner, DoDetach(now))
    case CloseSession(id, owner) => TargetById(s, id, owner, DoClose)
    case CloseByGroup(group, owner) =>
      if group in s.groups then TargetById(s, s.groups[group], owner, DoClose) else NoTarget
    case ForceClose(group) =>
      if group in s.groups && Known(s, s.groups[group]) then Target(s.groups[group], DoClose) else NoTarget
    case Internal(id, m) => Target(id, m)
  }

  function Clock(s: Registry, m: Move): int {
    match m
    case DoAttach(now) => now
    case DoDetach(now) => now
    case _ => s.clock
  }

  /** The target session makes its move; without one nothing happens. */
  function Reach(limits: Limits, s: Registry, target: Target): Registry {
    match target
    case NoTarget => s
    case Target(id, m) =>
      if id in s.lives && Possible(s.lives[id], m) then Do(limits, s, id, m).(clock := Clock(s, m)) else s
  }

  function Apply(limits: Limits, s: Registry, e: Event): Registry
    requires Enabled(s, e)
  {
    if e.CreateSession? then Create(s, e.group, e.owner, e.mode, e.newId) else Reach(limits, s, TargetOf(s, e))
  }

  /** The session that a creation drops from the maps. */
  function Replaced(s: Registry, e: Event): Option<string> {
    if e.CreateSession? && RefuseMode(e.mode).None? && Existing(s, e.group).Some?
       && !Active(Existing(s, e.group).value.status)
    then Some(Existing(s, e.group).value.id) else None
  }

  /** The single move of a session that an event amounts to. */
  function MoveOn(s: Registry, e: Event, id: string): Option<Move> {
    match TargetOf(s, e)
    case Target(sid, m) => if sid == id then Some(m) else None
    case NoTarget => if Replaced(s, e) == Some(id) then Some(DoDrop) else None
  }

  // ---- the invariant --------------------------------------------------

  /** Both maps hold the same sessions, one per workspace. */
  ghost predicate MapsAgree(groups: map<string, string>, lives: map<string, Life>) {
    && (forall id {:trigger lives[id]} | id in lives :: lives[id].session.id == id)
    && (forall g {:trigger groups[g]} | g in groups ::
          groups[g] in lives && lives[groups[g]].indexed && lives[groups[g]].session.group == g)
    && (forall id {:trigger lives[id]} | id in lives && lives[id].indexed ::
          lives[id].session.group in groups && groups[lives[id].session.group] == id)
  }

  ghost predicate LivesOk(limits: Limits, lives: map<string, Life>) {
    forall id {:trigger lives[id]} | id in lives :: LifeOk(limits, lives[id])
  }

  ghost predicate Inv(limits: Limits, s: Registry) {
    MapsAgree(s.groups, s.lives) && LivesOk(limits, s.lives)
  }

  /** Two lives that the maps cannot tell apart. */
  predicate SameName(l: Life, t: Life) {
    t.session.id == l.session.id && t.session.group == l.session.group && t.session.owner == l.session.owner
  }

  lemma LivesOkUpdate(limits: Limits, lives: map<string, Life>, id: string, l: Life)
    requires LivesOk(limits, lives) && LifeOk(limits, l)
    ensures LivesOk(limits, lives[id := l])
  {
  }

  lemma StepMaps(groups: map<string, string>, lives: map<string, Life>, id: string, l: Life)
    requires MapsAgree(groups, lives) && id in lives && SameName(lives[id], l) && l.indexed == lives[id].indexed
    ensures MapsAgree(groups, lives[id := l])
  {
  }

  lemma ForgetMaps(groups: map<string, string>, lives: map<string, Life>, id: string, l: Life)
    requires MapsAgree(groups, lives) && id in lives && lives[id].indexed && SameName(lives[id], l) && !l.indexed
    ensures MapsAgree(groups - {l.session.group}, lives[id := l])
  {
  }

  lemma InsertMaps(groups: map<string, string>, lives: map<string, Life>, l: Life)
    requires MapsAgree(groups, lives) && l.indexed && l.session.group !in groups && l.session.id !in lives
    ensures MapsAgree(groups[l.session.group := l.session.id], lives[l.session.id := l])
  {
  }

  /** What stays the same about a session that is stepped. */
  lemma StepKeepsNames(limits: Limits, l: Life, m: Move)
    requires Possible(l, m)
    ensures var t := Step(limits, l, m);
            SameName(l, t) && t.indexed == (l.indexed && !m.DoDrop?)
  {
  }

  lemma DoInv(limits: Limits, s: Registry, id: string, m: Move)
    requires Inv(limits, s) && id in s.lives && Possible(s.lives[id], m) && !m.DoDrop?
    ensures Inv(limits, Do(limits, s, id, m))
  {
    var l := Step(limits, s.lives[id], m);
    StepKeepsNames(limits, s.lives[id], m);
    MoveOk(limits, s.lives[id], m);
    LivesOkUpdate(limits, s.lives, id, l);
    StepMaps(s.groups, s.lives, id, l);
  }

  lemma ForgetInv(limits: Limits, s: Registry, group: string)
    requires Inv(limits, s) && Existing(s, group).Some? && !Active(Existing(s, group).value.status)
    ensures var prior := Existing(s, group).value;
            && Inv(limits, Forget(s, prior)) && group !in Forget(s, prior).groups
            && Forget(s, prior).lives.Keys == s.lives.Keys
  {
    var l := s.lives[s.groups[group]];
    assert Possible(l, DoDrop);
    StepKeepsNames(limits, l, DoDrop);
    MoveOk(limits, l, DoDrop);
    LivesOkUpdate(limits, s.lives, l.session.id, Drop(l));
    ForgetMaps(s.groups, s.lives, l.session.id, Drop(l));
  }

  lemma InsertInv(limits: Limits, s: Registry, l: Life)
    requires Inv(limits, s) && LifeOk(limits, l) && l.indexed
    requires l.session.group !in s.groups && l.session.id !in s.lives
    ensures Inv(limits, Insert(s, l))
  {
    LivesOkUpdate(limits, s.lives, l.session.id, l);
    InsertMaps(s.groups, s.lives, l);
  }

  lemma CreateInv(limits: Limits, s: Registry, group: string, owner: string, mode: Mode, id: string)
    requires Inv(limits, s) && id !in s.lives
    ensures Inv(limits, Create(s, group, owner, mode, id))
  {
    NewLifeOk(limits, id, group, owner);
    var prior := Existing(s, group);
    if RefuseMode(mode).None? {
      if prior.None? {
        InsertInv(limits, s, NewLife(id, group, owner));
      } else if !Active(prior.value.status) {
        ForgetInv(limits, s, group);
        InsertInv(limits, Forget(s, prior.value), NewLife(id, group, owner));
      }
    }
  }

  lemma {:induction false} RecoverInv(limits: Limits, found: seq<Found>)
    ensures Inv(limits, Recover(limits, found))
  {
    if found != [] {
      var init, last := found[..|found| - 1], found[|found| - 1];
      RecoverInv(limits, init);
      var s := Recover(limits, init);
      RecoveredLifeOk(limits, last.session, last.output, last.truncated);
      if !(!Active(last.session.status) || last.session.group in s.groups || last.session.id in s.lives) {
        InsertInv(limits, s, RecoveredLife(limits.historyMax, last.session, last.output, last.truncated));
      }
    }
  }

  lemma ReachInv(limits: Limits, s: Registry, target: Target)
    requires Inv(limits, s) && (target.Target? ==> !target.move.DoDrop?)
    ensures Inv(limits, Reach(limits, s, target))
  {
    if target.Target? && target.id in s.lives && Possible(s.lives[target.id], target.move) {
      DoInv(limits, s, target.id, target.move);
    }
  }

  lemma TargetIsNoDrop(s: Registry, e: Event)
    requires Enabled(s, e)
    ensures TargetOf(s, e).Target? ==> !TargetOf(s, e).move.DoDrop?
  {
  }

  lemma ApplyInv(limits: Limits, s: Registry, e: Event)
    requires Inv(limits, s) && Enabled(s, e)
    ensures Inv(limits, Apply(limits, s, e))
  {
    if e.CreateSession? {
      CreateInv(limits, s, e.group, e.owner, e.mode, e.newId);
    } else {
      TargetIsNoDrop(s, e);
      ReachInv(limits, s, TargetOf(s, e));
    }
  }

  // ---- whole runs -----------------------------------------------------

  /** A run from a recovered service on. */
  ghost predicate IsRun(limits: Limits, found: seq<Found>, states: seq<Registry>, events: seq<Event>) {
    && |states| == |events| + 1
    && states[0] == Recover(limits, found)
    && forall i {:trigger events[i]} | 0 <= i < |events| ::
         Enabled(states[i], events[i]) && states[i + 1] == Apply(limits, states[i], events[i])
  }

  lemma {:induction false} RunInv(limits: Limits, found: seq<Found>, states: seq<Registry>, events: seq<Event>, i: nat)
    requires IsRun(limits, found, states, events) && i < |states|
    ensures Inv(limits, states[i])
  {
    if i == 0 {
      RecoverInv(limits, found);
    } else {
      RunInv(limits, found, states, events, i - 1);
      assert Enabled(states[i - 1], events[i - 1]);
      ApplyInv(limits, states[i - 1], events[i - 1]);
    }
  }

  /** Main result: the status implications and the agreement of the two maps, in every reachable state. */
  lemma ReachableShape(limits: Limits, found: seq<Found>, states: seq<Registry>, events: seq<Event>, i: nat, id: string)
    requires IsRun(limits, found, states, events) && i < |states| && id in states[i].lives
    ensures var l := states[i].lives[id];
            && (l.session.deadline.Some? ==> l.session.status == Detached)
            && (l.session.status == Attached ==> l.session.queue.Some?)
            && (l.session.queue.Some? ==> l.session.status == Attached || l.session.status == Exited)
            && (l.indexed <==> exists g :: g in states[i].groups && states[i].groups[g] == id)
            && (l.indexed ==> l.session.group in states[i].groups && states[i].groups[l.session.group] == id)
  {
    RunInv(limits, found, states, events, i);
    if g :| g in states[i].groups && states[i].groups[g] == id {
      assert states[i].lives[states[i].groups[g]].indexed;
    }
  }

  /** A session's life before and after an event that amounts to at most one move of it. */
  predicate Moved(limits: Limits, l: Life, m: Option<Move>, t: Life) {
    if m.None? then t == l else Possible(l, m.value) && t == Step(limits, l, m.value)
  }

  lemma CreateIsMove(limits: Limits, s: Registry, e: Event, id: string)
    requires MapsAgree(s.groups, s.lives) && Enabled(s, e) && e.CreateSession?
    ensures var t := Create(s, e.group, e.owner, e.mode, e.newId);
            && (id in s.lives ==> id in t.lives && Moved(limits, s.lives[id], MoveOn(s, e, id), t.lives[id]))
            && (id !in s.lives && id in t.lives ==> t.lives[id] == NewLife(id, e.group, e.owner))
  {
    if Existing(s, e.group).Some? {
      assert s.lives[s.groups[e.group]].session.id == s.groups[e.group];
    }
  }

  lemma OtherIsMove(limits: Limits, s: Registry, e: Event, id: string)
    requires Enabled(s, e) && !e.CreateSession?
    ensures var t := Apply(limits, s, e);
            && t.lives.Keys == s.lives.Keys
            && (id in s.lives ==> Moved(limits, s.lives[id], MoveOn(s, e, id), t.lives[id]))
  {
  }

  /** How an event bears on one session: a single move, or nothing, or its creation. */
  lemma EventIsMove(limits: Limits, s: Registry, e: Event, id: string)
    requires Inv(limits, s) && Enabled(s, e)
    ensures var t := Apply(limits, s, e);
            && (id in s.lives ==> id in t.lives && Moved(limits, s.lives[id], MoveOn(s, e, id), t.lives[id]))
            && (id !in s.lives && id in t.lives ==>
                  e.CreateSession? && t.lives[id] == NewLife(id, e.group, e.owner))
  {
    if e.CreateSession? {
      CreateIsMove(limits, s, e, id);
    } else {
      OtherIsMove(limits, s, e, id);
    }
  }

  /** What an admitted entry point leaves behind: the one session it names has made its move. */
  lemma AdmittedIs(limits: Limits, s: Registry, id: string, owner: string, now: int)
    ensures Apply(limits, s, AttachSession(id, owner, now)) ==
              if Admit(s, id, owner).Some? then s
              else Registry(s.groups, s.lives[id := Attach(s.lives[id], now)], now)
    ensures Apply(limits, s, DetachSession(id, owner, now)) ==
              if Admit(s, id, owner).Some? then s
              else Registry(s.groups, s.lives[id := Detach(limits, s.lives[id], now)], now)
    ensures Apply(limits, s, CloseSession(id, owner)) ==
              if Admit(s, id, owner).Some? then s
              else Registry(s.groups, s.lives[id := Close(s.lives[id])], s.clock)
  {
  }

  lemma GroupCloseIs(limits: Limits, s: Registry, group: string, owner: string)
    ensures Apply(limits, s, CloseByGroup(group, owner)) ==
              if group !in s.groups then s else Apply(limits, s, CloseSession(s.groups[group], owner))
    ensures Apply(limits, s, ForceClose(group)) ==
              if group !in s.groups || !Known(s, s.groups[group]) then s
              else Registry(s.groups, s.lives[s.groups[group] := Close(s.lives[s.groups[group]])], s.clock)
  {
  }

  lemma InternalIs(limits: Limits, s: Registry, id: string, m: Move)
    requires Inv(limits, s) && Enabled(s, Internal(id, m))
    ensures var t := Registry(s.groups, s.lives[id := Step(limits, s.lives[id], m)], s.clock);
            Inv(limits, t) && Apply(limits, s, Internal(id, m)) == t
  {
    ApplyInv(limits, s, Internal(id, m));
  }

  lemma StepsAre(limits: Limits, l: Life, timer: nat, data: Option<Text>, code: Option<int>)
    ensures Possible(l, DoExpire(timer)) ==> Step(limits, l, DoExpire(timer)) == Expire(l, timer)
    ensures Possible(l, DoStartFailed) ==> Step(limits, l, DoStartFailed) == StartFailed(l)
    ensures Possible(l, DoHearOutput(data)) ==>
              Step(limits, l, DoHearOutput(data)) == HearOutput(limits.historyMax, l, data)
    ensures Step(limits, l, DoHearExit(code)) == HearExit(l, code)
  {
  }

  /** Closing by force leaves one session closed. */
  lemma ForceCloseIs(limits: Limits, s: Registry, group: string)
    requires Inv(limits, s)
    ensures var t := if group !in s.groups then s
                     else Registry(s.groups, s.lives[s.groups[group] := Close(s.lives[s.groups[group]])], s.clock);
            Inv(limits, t) && Apply(limits, s, ForceClose(group)) == t
  {
    ApplyInv(limits, s, ForceClose(group));
    GroupCloseIs(limits, s, group, "");
  }
}
