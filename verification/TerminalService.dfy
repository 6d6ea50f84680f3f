/**
 The service object of services/terminal_sessions.py and its managed sessions,
 updated in place. Both maps hold references to the same session objects. Each
 method is one lock section and is proved to do exactly what the corresponding
 step of the registry does.
 */
module TerminalService {
  import opened Wrappers
  import opened Strings
  import opened OutputHistory
  import opened TerminalLife
  import opened TerminalRegistry

  class ManagedSession {
    const id: string
    const group: string
    const owner: string
    var status: SessionStatus
    var lastAttachedAt: Option<int>
    var deadline: Option<int>
    var hasBridge: bool
    var outputQueue: Option<nat>
    var reconnectTask: Option<nat>
    var chunks: seq<Text>
    var bytes: int
    var truncated: bool
    /** The queues, tasks and bridge outside the object, which the source reaches through references. */
    var world: World

    function Value(): Managed
      reads this
    {
      Managed(id, group, owner, status, lastAttachedAt, deadline, hasBridge, outputQueue, reconnectTask,
              History(chunks, bytes, truncated))
    }

    ghost function Life(): Life
      reads this
    {
      TerminalLife.Life(Value(), true, world)
    }

    constructor (id: string, group: string, owner: string)
      ensures this.id == id && this.group == group && this.owner == owner
      ensures Life() == NewLife(id, group, owner)
    {
      this.id, this.group, this.owner := id, group, owner;
      status, lastAttachedAt, deadline := Created, None, None;
      hasBridge, outputQueue, reconnectTask := true, None, None;
      chunks, bytes, truncated := [], 0, false;
      world := NewLife(id, group, owner).world;
    }

    constructor Recovered(max: int, found: Managed, output: Text, wasTruncated: bool)
      ensures id == found.id && group == found.group && owner == found.owner
      ensures Life() == RecoveredLife(max, found, output, wasTruncated)
    {
      id, group, owner := found.id, found.group, found.owner;
      status, lastAttachedAt, deadline := Detached, found.lastAttachedAt, None;
      hasBridge, outputQueue, reconnectTask := false, None, None;
      chunks, bytes, truncated := [], 0, wasTruncated;
      world := QUIET_WORLD.(log := [Some(output)], seeded := wasTruncated);
      new;
      AppendOutputHistory(max, output);
    }

    /** `_append_output_history`. */
    method AppendOutputHistory(max: int, chunk: Text)
      modifies this`chunks, this`bytes, this`truncated
      ensures History(chunks, bytes, truncated) == Append(max, old(History(chunks, bytes, truncated)), chunk)
    {
      if max <= 0 || chunk == [] {
        if max <= 0 {
          chunks, bytes := [], 0;
        }
        return;
      }
      var size := Size(chunk);
      if size <= 0 {
        return;
      }
      chunks, bytes := chunks + [chunk], bytes + size;
      ghost var grown := History(chunks, bytes, truncated);
      while bytes > max && chunks != []
        invariant Trim(max, History(chunks, bytes, truncated)) == Trim(max, grown)
        decreases |chunks|
      {
        var removed := chunks[0];
        chunks, bytes, truncated := chunks[1..], bytes - Size(removed), true;
      }
      if bytes < 0 {
        bytes := 0;
      }
    }

    method CancelReconnectTask()
      modifies this`reconnectTask, this`world
      ensures reconnectTask == None
      ensures world == old(world.(timers := CancelTimer(world.timers, reconnectTask)))
    {
      world := world.(timers := CancelTimer(world.timers, reconnectTask));
      reconnectTask := None;
    }

    method ClearQueue()
      modifies this`outputQueue, this`world
      ensures outputQueue == None
      ensures world == old(world.(queues := Retire(world.queues, outputQueue, |world.log|)))
    {
      world := world.(queues := Retire(world.queues, outputQueue, |world.log|));
      outputQueue := None;
    }

    /** The lock section of `attach_session`; `true` when the caller has to start a new bridge. */
    method Attach(now: int) returns (bridgeToStart: bool)
      modifies this
      ensures Life() == TerminalLife.Attach(old(Life()), now)
      ensures bridgeToStart == old(!hasBridge)
    {
      CancelReconnectTask();
      ClearQueue();
      world := world.(queues := world.queues + [OutputQueue(Replay(chunks), |world.log|, None)], ops := world.ops + 1);
      outputQueue := Some(|world.queues| - 1);
      status, lastAttachedAt, deadline := Attached, Some(now), None;
      bridgeToStart := !hasBridge;
      if bridgeToStart {
        hasBridge := true;
        world := world.(stage := Starting(true));
      }
    }

    /** The `except` block of `attach_session`. */
    method FailStart()
      requires world.stage == Starting(true)
      modifies this
      ensures Life() == StartFailed(old(Life()))
    {
      hasBridge := false;
      ClearQueue();
      status, deadline := Closed, None;
      world := world.(stage := Stopped, ops := world.ops + 1);
    }

    method Detach(limits: Limits, now: int)
      modifies this
      ensures Life() == TerminalLife.Detach(limits, old(Life()), now)
    {
      ClearQueue();
      status, deadline := Detached, Some(now + limits.reconnect);
      CancelReconnectTask();
      reconnectTask := Some(|world.timers|);
      world := world.(timers := world.timers + [Timer(now + limits.reconnect, Armed, world.ops + 1)],
                      ops := world.ops + 1);
    }

    method Close()
      modifies this
      ensures Life() == TerminalLife.Close(old(Life()))
    {
      CancelReconnectTask();
      ClearQueue();
      status, deadline := Closed, None;
      world := world.(ops := world.ops + 1, closeBegun := world.closeBegun || hasBridge);
    }

    /** `_expire_detached_session` after its sleep. */
    method Expire(timer: nat)
      requires timer < |world.timers|
      modifies this
      ensures Life() == TerminalLife.Expire(old(Life()), timer)
    {
      world := world.(timers := world.timers[timer := world.timers[timer].(state := Fired)]);
      if status != Detached {
        return;
      }
      if deadline != Some(world.timers[timer].deadline) {
        return;
      }
      status, deadline := Closed, None;
      world := world.(ops := world.ops + 1, closeBegun := world.closeBegun || hasBridge);
    }

    /** The lock section of `_handle_bridge_event` for an output. */
    method HearOutput(max: int, data: Option<Text>)
      modifies this
      ensures Life() == TerminalLife.HearOutput(max, old(Life()), data)
    {
      match data
      case Some(text) =>
        AppendOutputHistory(max, text);
        world := world.(log := world.log + [data], handler := Some(Handler(outputQueue, text)));
      case None =>
        world := world.(log := world.log + [data], queues := Put(world.queues, outputQueue, Output(None)));
    }

    method HearExit(code: Option<int>)
      modifies this
      ensures Life() == TerminalLife.HearExit(old(Life()), code)
    {
      CancelReconnectTask();
      status, deadline := Exited, None;
      world := world.(notices := world.notices + [Notice(outputQueue, code)], ops := world.ops + 1);
    }
  }

  lemma OverrideUpdate<K, V>(a: map<K, V>, b: map<K, V>, k: K, v: V)
    ensures a + b[k := v] == (a + b)[k := v]
    ensures k in b ==> k in a + b && (a + b)[k] == b[k]
  {
  }

  lemma OverrideRemove<K, V>(a: map<K, V>, b: map<K, V>, k: K, v: V)
    ensures a[k := v] + (b - {k}) == (a + b)[k := v]
  {
  }

  class TerminalSessionService {
    const limits: Limits
    var byGroup: map<string, ManagedSession>
    var byId: map<string, ManagedSession>
    ghost var dropped: map<string, Life>
    ghost var clock: int

    ghost function Groups(): map<string, string>
      reads this
    {
      map g | g in byGroup :: byGroup[g].id
    }

    ghost function Indexed(): map<string, Life>
      reads this, byId.Values
    {
      map id | id in byId :: byId[id].Life()
    }

    ghost function Lives(): map<string, Life>
      reads this, byId.Values
    {
      dropped + Indexed()
    }

    ghost function Value(): Registry
      reads this, byId.Values
    {
      Registry(Groups(), Lives(), clock)
    }

    /** The two maps lead to the same objects, and nothing dropped is still reachable. */
    ghost predicate SameObjects()
      reads this, byId.Values
    {
      && (forall id | id in byId :: byId[id].id == id && id !in dropped
            && byId[id].group in byGroup && byGroup[byId[id].group] == byId[id])
      && (forall g | g in byGroup ::
            byGroup[g].group == g && byGroup[g].id in byId && byId[byGroup[g].id] == byGroup[g])
      && (forall id | id in dropped :: !dropped[id].indexed)
    }

    ghost predicate Valid()
      reads this, byId.Values
    {
      SameObjects() && Inv(limits, Value())
    }

    constructor (limits: Limits)
      ensures Valid() && this.limits == limits && Value() == Recover(limits, [])
    {
      this.limits := limits;
      byGroup, byId, dropped, clock := map[], map[], map[], 0;
    }

    /** Names are constants, so the maps agree whatever happens to the objects they hold. */
    twostate lemma NamesKept()
      requires old(SameObjects()) && byGroup == old(byGroup) && byId == old(byId) && dropped == old(dropped)
      ensures SameObjects() && Groups() == old(Groups())
    {
    }

    /** `_recover_active_sessions_from_persisted_snapshots`. */
    constructor Recovered(limits: Limits, found: seq<Found>)
      ensures Valid() && this.limits == limits && Value() == Recover(limits, found)
    {
      this.limits := limits;
      byGroup, byId, dropped, clock := map[], map[], map[], 0;
      new;
      for i := 0 to |found|
        invariant SameObjects() && dropped == map[] && Value() == Recover(limits, found[..i])
        invariant forall m | m in byId.Values :: fresh(m)
      {
        assert found[..i + 1][..i] == found[..i];
        RecoverOne(found[i]);
      }
      assert found[..|found|] == found;
      RecoverInv(limits, found);
    }

    method RecoverOne(snapshot: Found)
      requires SameObjects() && dropped == map[]
      modifies this`byGroup, this`byId
      ensures SameObjects()
      ensures Value() == RecoverNext(limits, old(Value()), snapshot)
      ensures forall m | m in byId.Values :: m in old(byId.Values) || fresh(m)
    {
      if !Active(snapshot.session.status) {
        return;
      }
      if snapshot.session.group in byGroup || snapshot.session.id in byId {
        return;
      }
      var managed := new ManagedSession.Recovered(limits.historyMax, snapshot.session, snapshot.output,
                                                  snapshot.truncated);
      NoneChanged();
      InsertSession(managed);
    }

    /** Only one session object changed. */
    twostate lemma OneChanged(managed: ManagedSession)
      requires old(SameObjects()) && managed.id in byId && byId[managed.id] == managed && byId == old(byId)
      requires forall m | m in byId.Values && m != managed :: unchanged(m)
      ensures Indexed() == old(Indexed())[managed.id := managed.Life()]
    {
      forall id | id in byId && id != managed.id ensures byId[id].Life() == old(byId[id].Life()) {
        assert byId[id] in byId.Values && byId[id] != managed;
      }
    }

    /** No session object changed. */
    twostate lemma NoneChanged()
      requires byId == old(byId) && forall m | m in byId.Values :: unchanged(m)
      ensures Indexed() == old(Indexed())
    {
      forall id | id in byId ensures byId[id].Life() == old(byId[id].Life()) {
        assert byId[id] in byId.Values;
      }
    }

    lemma LiveSession(id: string)
      requires SameObjects()
      ensures id in byId ==> id in Lives() && Lives()[id] == byId[id].Life()
      ensures id !in byId ==> !Known(Value(), id)
    {
    }

    /** So the registry changes at one session. */
    twostate lemma Replaced(managed: ManagedSession)
      requires old(SameObjects()) && managed.id in byId && byId[managed.id] == managed
      requires byGroup == old(byGroup) && byId == old(byId) && dropped == old(dropped)
      requires forall m | m in byId.Values && m != managed :: unchanged(m)
      ensures SameObjects() && managed.id in old(Lives()) && old(Lives())[managed.id] == old(managed.Life())
      ensures Value() == Registry(old(Groups()), old(Lives())[managed.id := managed.Life()], clock)
    {
      NamesKept();
      OneChanged(managed);
      OverrideUpdate(dropped, old(Indexed()), managed.id, managed.Life());
    }

    lemma AdmitIs(id: string, owner: string)
      requires SameObjects()
      ensures Admit(Value(), id, owner) == (if id !in byId then Some(NotFound)
                                            else if byId[id].owner != owner then Some(NotOwner) else None)
    {
      LiveSession(id);
    }

    method RequireSession(id: string, owner: string) returns (managed: ManagedSession?, refusal: Option<Refusal>)
      requires SameObjects()
      ensures refusal == (if id !in byId then Some(NotFound)
                          else if byId[id].owner != owner then Some(NotOwner) else None)
      ensures refusal.None? ==> id in byId && managed == byId[id]
    {
      if id !in byId {
        return null, Some(NotFound);
      }
      if byId[id].owner != owner {
        return null, Some(NotOwner);
      }
      return byId[id], None;
    }

    method AttachTo(managed: ManagedSession, now: int) returns (bridgeToStart: bool)
      requires SameObjects() && managed.id in byId && byId[managed.id] == managed
      modifies this`clock, managed
      ensures SameObjects() && bridgeToStart == old(!managed.hasBridge)
      ensures Value() == Registry(old(Groups()),
                                  old(Lives())[managed.id := TerminalLife.Attach(old(managed.Life()), now)], now)
    {
      bridgeToStart := managed.Attach(now);
      clock := now;
      Replaced(managed);
    }

    method TryAttach(id: string, owner: string, now: int) returns (refusal: Option<Refusal>, bridgeToStart: bool)
      requires SameObjects()
      modifies this`clock, byId.Values
      ensures SameObjects() && (bridgeToStart <==> refusal.None? && !old(id in byId && byId[id].hasBridge))
      ensures refusal == (if id !in byId then Some(NotFound)
                          else if byId[id].owner != owner then Some(NotOwner) else None)
      ensures Value() == if refusal.Some? then old(Value())
                         else Registry(old(Groups()), old(Lives())[id := TerminalLife.Attach(old(Lives()[id]), now)],
                                       now)
    {
      LiveSession(id);
      var managed;
      managed, refusal := RequireSession(id, owner);
      bridgeToStart := false;
      if refusal.None? {
        bridgeToStart := AttachTo(managed, now);
      }
    }

    method AttachSession(id: string, owner: string, now: int) returns (refusal: Option<Refusal>, bridgeToStart: bool)
      requires Valid()
      modifies this`clock, byId.Values
      ensures Valid() && Value() == Apply(limits, old(Value()), Event.AttachSession(id, owner, now))
      ensures refusal == (if id !in byId then Some(NotFound)
                          else if byId[id].owner != owner then Some(NotOwner) else None)
      ensures refusal.Some? ==> Value() == old(Value())
      ensures bridgeToStart <==> refusal.None? && !old(id in byId && byId[id].hasBridge)
    {
      ApplyInv(limits, Value(), Event.AttachSession(id, owner, now));
      AdmittedIs(limits, Value(), id, owner, now);
      AdmitIs(id, owner);
      refusal, bridgeToStart := TryAttach(id, owner, now);
    }

    method DetachFrom(managed: ManagedSession, now: int)
      requires SameObjects() && managed.id in byId && byId[managed.id] == managed
      modifies this`clock, managed
      ensures SameObjects()
      ensures Value() == Registry(old(Groups()),
                                  old(Lives())[managed.id := TerminalLife.Detach(limits, old(managed.Life()), now)],
                                  now)
    {
      managed.Detach(limits, now);
      clock := now;
      Replaced(managed);
    }

    method TryDetach(id: string, owner: string, now: int) returns (refusal: Option<Refusal>)
      requires SameObjects()
      modifies this`clock, byId.Values
      ensures SameObjects()
      ensures refusal == (if id !in byId then Some(NotFound)
                          else if byId[id].owner != owner then Some(NotOwner) else None)
      ensures Value() == if refusal.Some? then old(Value())
                         else Registry(old(Groups()),
                                       old(Lives())[id := TerminalLife.Detach(limits, old(Lives()[id]), now)], now)
    {
      LiveSession(id);
      var managed;
      managed, refusal := RequireSession(id, owner);
      if refusal.None? {
        DetachFrom(managed, now);
      }
    }

    method DetachSession(id: string, owner: string, now: int) returns (refusal: Option<Refusal>)
      requires Valid()
      modifies this`clock, byId.Values
      ensures Valid() && Value() == Apply(limits, old(Value()), Event.DetachSession(id, owner, now))
      ensures refusal == (if id !in byId then Some(NotFound)
                          else if byId[id].owner != owner then Some(NotOwner) else None)
      ensures refusal.Some? ==> Value() == old(Value())
    {
      ApplyInv(limits, Value(), Event.DetachSession(id, owner, now));
      AdmittedIs(limits, Value(), id, owner, now);
      AdmitIs(id, owner);
      refusal := TryDetach(id, owner, now);
    }

    method CloseManaged(managed: ManagedSession)
      requires SameObjects() && managed.id in byId && byId[managed.id] == managed
      modifies managed
      ensures SameObjects()
      ensures Value() == Registry(old(Groups()), old(Lives())[managed.id := TerminalLife.Close(old(managed.Life()))],
                                  clock)
    {
      managed.Close();
      Replaced(managed);
    }

    method TryClose(id: string, owner: string) returns (refusal: Option<Refusal>)
      requires SameObjects()
      modifies byId.Values
      ensures SameObjects()
      ensures refusal == (if id !in byId then Some(NotFound)
                          else if byId[id].owner != owner then Some(NotOwner) else None)
      ensures Value() == if refusal.Some? then old(Value())
                         else Registry(old(Groups()), old(Lives())[id := TerminalLife.Close(old(Lives()[id]))], clock)
    {
      LiveSession(id);
      var managed;
      managed, refusal := RequireSession(id, owner);
      if refusal.None? {
        CloseManaged(managed);
      }
    }

    method CloseSession(id: string, owner: string) returns (refusal: Option<Refusal>)
      requires Valid()
      modifies byId.Values
      ensures Valid() && Value() == Apply(limits, old(Value()), Event.CloseSession(id, owner))
      ensures refusal == (if id !in byId then Some(NotFound)
                          else if byId[id].owner != owner then Some(NotOwner) else None)
      ensures refusal.Some? ==> Value() == old(Value())
    {
      ApplyInv(limits, Value(), Event.CloseSession(id, owner));
      AdmittedIs(limits, Value(), id, owner, 0);
      AdmitIs(id, owner);
      refusal := TryClose(id, owner);
    }

    method CloseSessionByGroup(group: string, owner: string) returns (refusal: Option<Refusal>)
      requires Valid()
      modifies byId.Values
      ensures Valid() && Value() == Apply(limits, old(Value()), Event.CloseByGroup(group, owner))
      ensures refusal == (if group !in byGroup then Some(NotFound)
                          else if byGroup[group].owner != owner then Some(NotOwner) else None)
      ensures refusal.Some? ==> Value() == old(Value())
    {
      GroupCloseIs(limits, Value(), group, owner);
      if group !in byGroup {
        return Some(NotFound);
      }
      refusal := CloseSession(byGroup[group].id, owner);
    }

    method TryForceClose(group: string) returns (refusal: Option<Refusal>)
      requires SameObjects()
      modifies byId.Values
      ensures refusal == (if group in byGroup then None else Some(NotFound)) && SameObjects()
      ensures Value() == if refusal.Some? then old(Value())
                         else Registry(old(Groups()),
                                       old(Lives())[byGroup[group].id
                                                    := TerminalLife.Close(old(byGroup[group].Life()))],
                                       clock)
    {
      if group !in byGroup {
        return Some(NotFound);
      }
      CloseManaged(byGroup[group]);
      refusal := None;
    }

    method ForceCloseSessionByGroup(group: string) returns (refusal: Option<Refusal>)
      requires Valid()
      modifies byId.Values
      ensures Valid() && Value() == Apply(limits, old(Value()), Event.ForceClose(group))
      ensures refusal == if group in byGroup then None else Some(NotFound)
    {
      ForceCloseIs(limits, Value(), group);
      GroupSession(group);
      refusal := TryForceClose(group);
    }

    lemma GroupSession(group: string)
      requires SameObjects()
      ensures group in byGroup ==>
                && group in Groups() && Groups()[group] == byGroup[group].id && Known(Value(), byGroup[group].id)
                && Lives()[byGroup[group].id] == byGroup[group].Life()
      ensures group !in byGroup ==> group !in Groups()
    {
    }

    /** A dropped session is no longer an object of the service; only its timers and bridge go on. */
    ghost method UpdateDropped(id: string, l: Life)
      requires SameObjects() && id in dropped && !l.indexed
      modifies this`dropped
      ensures SameObjects()
      ensures Value() == Registry(old(Groups()), old(Lives())[id := l], clock)
    {
      dropped := dropped[id := l];
      NoneChanged();
      assert id !in Indexed();
    }

    lemma DroppedSession(id: string)
      requires SameObjects() && id in Lives() && id !in byId
      ensures id in dropped && Lives()[id] == dropped[id] && !dropped[id].indexed
    {
    }

    method ExpireDetachedOf(managed: ManagedSession, timer: nat)
      requires SameObjects() && managed.id in byId && byId[managed.id] == managed && timer < |managed.world.timers|
      modifies managed
      ensures SameObjects()
      ensures Value() == Registry(old(Groups()),
                                  old(Lives())[managed.id := TerminalLife.Expire(old(managed.Life()), timer)], clock)
    {
      managed.Expire(timer);
      Replaced(managed);
    }

    method TryExpireDetached(id: string, timer: nat)
      requires SameObjects() && id in Lives() && timer < |Lives()[id].world.timers|
      modifies this`dropped, byId.Values
      ensures SameObjects()
      ensures Value() == Registry(old(Groups()), old(Lives())[id := TerminalLife.Expire(old(Lives()[id]), timer)],
                                  clock)
    {
      LiveSession(id);
      if id !in byId {
        DroppedSession(id);
        UpdateDropped(id, TerminalLife.Expire(dropped[id], timer));
        return;
      }
      ExpireDetachedOf(byId[id], timer);
    }

    /** `_expire_detached_session` after its sleep. */
    method ExpireDetached(id: string, timer: nat)
      requires Valid() && Enabled(Value(), Internal(id, DoExpire(timer)))
      modifies this`dropped, byId.Values
      ensures Valid() && Value() == Apply(limits, old(Value()), Internal(id, DoExpire(timer)))
    {
      InternalIs(limits, Value(), id, DoExpire(timer));
      StepsAre(limits, Value().lives[id], timer, None, None);
      TryExpireDetached(id, timer);
    }

    method FailStartOf(managed: ManagedSession)
      requires SameObjects() && managed.id in byId && byId[managed.id] == managed
      requires managed.world.stage == Starting(true)
      modifies managed
      ensures SameObjects()
      ensures Value() == Registry(old(Groups()), old(Lives())[managed.id := StartFailed(old(managed.Life()))], clock)
    {
      managed.FailStart();
      Replaced(managed);
    }

    method TryFailStart(id: string)
      requires SameObjects() && id in Lives() && Lives()[id].world.stage == Starting(true)
      modifies this`dropped, byId.Values
      ensures SameObjects()
      ensures Value() == Registry(old(Groups()), old(Lives())[id := StartFailed(old(Lives()[id]))], clock)
    {
      LiveSession(id);
      if id !in byId {
        DroppedSession(id);
        UpdateDropped(id, StartFailed(dropped[id]));
        return;
      }
      FailStartOf(byId[id]);
    }

    /** The `except` block of `attach_session`. */
    method FailStart(id: string)
      requires Valid() && Enabled(Value(), Internal(id, DoStartFailed))
      requires Value().lives[id].world.stage == Starting(true)
      modifies this`dropped, byId.Values
      ensures Valid() && Value() == Apply(limits, old(Value()), Internal(id, DoStartFailed))
    {
      InternalIs(limits, Value(), id, DoStartFailed);
      StepsAre(limits, Value().lives[id], 0, None, None);
      TryFailStart(id);
    }

    method HandleOutputOf(managed: ManagedSession, data: Option<Text>)
      requires SameObjects() && managed.id in byId && byId[managed.id] == managed
      modifies managed
      ensures SameObjects()
      ensures var heard := TerminalLife.HearOutput(limits.historyMax, old(managed.Life()), data);
              Value() == Registry(old(Groups()), old(Lives())[managed.id := heard], clock)
    {
      managed.HearOutput(limits.historyMax, data);
      Replaced(managed);
    }

    method TryHandleOutput(id: string, data: Option<Text>)
      requires SameObjects() && id in Lives()
      modifies this`dropped, byId.Values
      ensures SameObjects()
      ensures var heard := TerminalLife.HearOutput(limits.historyMax, old(Lives()[id]), data);
              Value() == Registry(old(Groups()), old(Lives())[id := heard], clock)
    {
      LiveSession(id);
      if id !in byId {
        DroppedSession(id);
        assert Lives()[id := Lives()[id]] == Lives();
        return;
      }
      HandleOutputOf(byId[id], data);
    }

    /** The lock section of `_handle_bridge_event`, for an output. */
    method HandleOutput(id: string, data: Option<Text>)
      requires Valid() && Enabled(Value(), Internal(id, DoHearOutput(data)))
      modifies this`dropped, byId.Values
      ensures Valid() && Value() == Apply(limits, old(Value()), Internal(id, DoHearOutput(data)))
    {
      InternalIs(limits, Value(), id, DoHearOutput(data));
      StepsAre(limits, Value().lives[id], 0, data, None);
      TryHandleOutput(id, data);
    }

    method HandleExitOf(managed: ManagedSession, code: Option<int>)
      requires SameObjects() && managed.id in byId && byId[managed.id] == managed
      modifies managed
      ensures SameObjects()
      ensures Value() == Registry(old(Groups()),
                                  old(Lives())[managed.id := TerminalLife.HearExit(old(managed.Life()), code)], clock)
    {
      managed.HearExit(code);
      Replaced(managed);
    }

    method TryHandleExit(id: string, code: Option<int>)
      requires SameObjects() && id in Lives()
      modifies this`dropped, byId.Values
      ensures SameObjects()
      ensures Value() == Registry(old(Groups()), old(Lives())[id := TerminalLife.HearExit(old(Lives()[id]), code)],
                                  clock)
    {
      LiveSession(id);
      if id !in byId {
        DroppedSession(id);
        assert Lives()[id := Lives()[id]] == Lives();
        return;
      }
      HandleExitOf(byId[id], code);
    }

    /** The lock section of `_handle_bridge_event`, for an exit. */
    method HandleExit(id: string, code: Option<int>)
      requires Valid() && Enabled(Value(), Internal(id, DoHearExit(code)))
      modifies this`dropped, byId.Values
      ensures Valid() && Value() == Apply(limits, old(Value()), Internal(id, DoHearExit(code)))
    {
      InternalIs(limits, Value(), id, DoHearExit(code));
      StepsAre(limits, Value().lives[id], 0, None, code);
      TryHandleExit(id, code);
    }

    // ---- creating and recovering --------------------------------------

    /** Both maps forget a session. */
    method Unindex(managed: ManagedSession)
      requires SameObjects() && managed.id in byId && byId[managed.id] == managed
      modifies this`byGroup, this`byId, this`dropped
      ensures SameObjects() && byId == old(byId) - {managed.id} && byGroup == old(byGroup) - {managed.group}
      ensures Value() == Registry(old(Groups()) - {managed.group},
                                  old(Lives())[managed.id := Drop(old(managed.Life()))], clock)
    {
      byGroup := byGroup - {managed.group};
      byId := byId - {managed.id};
      dropped := dropped[managed.id := Drop(old(managed.Life()))];
      UnindexedNames(managed);
      UnindexedLives(managed);
    }

    twostate lemma UnindexedNames(managed: ManagedSession)
      requires old(SameObjects()) && managed.id in old(byId) && old(byId)[managed.id] == managed
      requires byId == old(byId) - {managed.id} && byGroup == old(byGroup) - {managed.group}
      requires dropped.Keys == old(dropped).Keys + {managed.id} && !dropped[managed.id].indexed
      requires forall id | id in old(dropped) :: id != managed.id && dropped[id] == old(dropped)[id]
      ensures SameObjects() && Groups() == old(Groups()) - {managed.group}
    {
    }

    twostate lemma UnindexedLives(managed: ManagedSession)
      requires old(SameObjects()) && managed.id in old(byId) && old(byId)[managed.id] == managed
      requires byId == old(byId) - {managed.id}
      requires dropped == old(dropped)[managed.id := Drop(old(managed.Life()))]
      requires forall m | m in byId.Values :: unchanged(m)
      ensures Lives() == old(Lives())[managed.id := Drop(old(managed.Life()))]
    {
      forall id | id in byId ensures byId[id].Life() == old(byId[id].Life()) {
        assert byId[id] in byId.Values;
      }
      assert Indexed() == old(Indexed()) - {managed.id};
      OverrideRemove(old(dropped), old(Indexed()), managed.id, Drop(old(managed.Life())));
    }

    /** `_drop_session`. */
    method DropSession(managed: ManagedSession)
      requires SameObjects() && managed.id in byId && byId[managed.id] == managed
      modifies this`byGroup, this`byId, this`dropped, managed
      ensures SameObjects() && byId == old(byId) - {managed.id} && byGroup == old(byGroup) - {managed.group}
      ensures Value() == Registry(old(Groups()) - {managed.group},
                                  old(Lives())[managed.id := Drop(old(managed.Life()))], clock)
    {
      Unindex(managed);
      label gone:
      managed.CancelReconnectTask();
      NoneChanged@gone();
    }

    method InsertSession(managed: ManagedSession)
      requires SameObjects()
      requires managed.group !in byGroup && managed.id !in byId && managed.id !in dropped
      modifies this`byGroup, this`byId
      ensures SameObjects()
      ensures byGroup == old(byGroup)[managed.group := managed] && byId == old(byId)[managed.id := managed]
      ensures Value() == Registry(old(Groups())[managed.group := managed.id],
                                  old(Lives())[managed.id := managed.Life()], clock)
    {
      byGroup := byGroup[managed.group := managed];
      byId := byId[managed.id := managed];
      InsertedNames(managed);
      InsertedLives(managed);
    }

    twostate lemma InsertedNames(managed: ManagedSession)
      requires old(SameObjects()) && dropped == old(dropped) && managed.id !in dropped
      requires managed.group !in old(byGroup) && managed.id !in old(byId)
      requires byId == old(byId)[managed.id := managed] && byGroup == old(byGroup)[managed.group := managed]
      ensures SameObjects() && Groups() == old(Groups())[managed.group := managed.id]
    {
    }

    twostate lemma InsertedLives(managed: ManagedSession)
      requires dropped == old(dropped) && managed.id !in old(byId) && byId == old(byId)[managed.id := managed]
      requires forall m | m in old(byId).Values :: unchanged(m)
      ensures Lives() == old(Lives())[managed.id := managed.Life()]
    {
      forall id | id in old(byId) ensures byId[id].Life() == old(byId[id].Life()) {
        assert byId[id] in old(byId).Values;
      }
      assert Indexed() == old(Indexed())[managed.id := managed.Life()];
      OverrideUpdate(dropped, old(Indexed()), managed.id, managed.Life());
    }

    lemma ExistingIs(group: string)
      requires SameObjects()
      ensures Existing(Value(), group) == if group in byGroup then Some(byGroup[group].Value()) else None
    {
      GroupSession(group);
    }

    /** The workspace has a session that has neither been closed nor exited. */
    predicate Occupied(group: string)
      reads this, byGroup.Values
    {
      group in byGroup && byGroup[group].status != Closed && byGroup[group].status != Exited
    }

    /** A session ended earlier makes room for its workspace's next one. */
    method MakeRoom(group: string)
      requires SameObjects() && (group in byGroup ==> !Active(byGroup[group].status))
      modifies this`byGroup, this`byId, this`dropped, byId.Values
      ensures SameObjects() && group !in byGroup && Lives().Keys == old(Lives()).Keys && byId.Values <= old(byId.Values)
      ensures var prior := old(Existing(Value(), group));
              Value() == if prior.None? then old(Value()) else Forget(old(Value()), prior.value)
    {
      ExistingIs(group);
      if group in byGroup {
        GroupSession(group);
        DropSession(byGroup[group]);
      }
    }

    method AddNew(id: string, group: string, owner: string) returns (record: Managed)
      requires SameObjects() && group !in byGroup && id !in Lives()
      modifies this`byGroup, this`byId
      ensures SameObjects() && Value() == Insert(old(Value()), NewLife(id, group, owner))
      ensures record == NewSession(id, group, owner)
      ensures group in byGroup && id in byId && byGroup[group] == byId[id] && byGroup[group].Value() == record
    {
      var managed := new ManagedSession(id, group, owner);
      record := managed.Value();
      NoneChanged();
      InsertSession(managed);
    }

    method TryCreate(group: string, owner: string, mode: Mode, newId: string) returns (reply: Reply)
      requires SameObjects() && newId !in Lives()
      modifies this`byGroup, this`byId, this`dropped, byId.Values
      ensures SameObjects() && Value() == Create(old(Value()), group, owner, mode, newId)
      ensures mode != Container ==> reply == Refused(if mode == Host then BackendDisabled else BackendUnsupported)
      ensures mode == Container && old(Occupied(group)) ==>
                reply == old(if byGroup[group].owner != owner then Refused(Conflict)
                             else Granted(byGroup[group].Value()))
      ensures reply.Refused? || old(Occupied(group)) ==> Value() == old(Value())
      ensures mode == Container && !old(Occupied(group)) ==>
                && reply == Granted(Managed(newId, group, owner, Created, None, None, true, None, None,
                                            History([], 0, false)))
                && group in byGroup && newId in byId && byGroup[group] == byId[newId]
                && byGroup[group].Value() == reply.session
    {
      if mode == Host {
        return Refused(BackendDisabled);
      }
      if mode == OpenAI {
        return Refused(BackendUnsupported);
      }
      ExistingIs(group);
      if group in byGroup && Active(byGroup[group].status) {
        if byGroup[group].owner != owner {
          return Refused(Conflict);
        }
        return Granted(byGroup[group].Value());
      }
      MakeRoom(group);
      var record := AddNew(newId, group, owner);
      reply := Granted(record);
    }

    method CreateSession(group: string, owner: string, mode: Mode, newId: string) returns (reply: Reply)
      requires Valid() && newId !in Value().lives
      modifies this`byGroup, this`byId, this`dropped, byId.Values
      ensures Valid() && Value() == Apply(limits, old(Value()), Event.CreateSession(group, owner, mode, newId))
      ensures mode != Container ==> reply == Refused(if mode == Host then BackendDisabled else BackendUnsupported)
      ensures mode == Container && old(Occupied(group)) ==>
                reply == old(if byGroup[group].owner != owner then Refused(Conflict)
                             else Granted(byGroup[group].Value()))
      ensures reply.Refused? || old(Occupied(group)) ==> Value() == old(Value())
      ensures mode == Container && !old(Occupied(group)) ==>
                && reply == Granted(Managed(newId, group, owner, Created, None, None, true, None, None,
                                            History([], 0, false)))
                && group in byGroup && newId in byId && byGroup[group] == byId[newId]
                && byGroup[group].Value() == reply.session
    {
      CreateInv(limits, Value(), group, owner, mode, newId);
      reply := TryCreate(group, owner, mode, newId);
    }
  }
}
