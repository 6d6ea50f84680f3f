/**
 The session store of services/workspace_lifecycle.py: which session id a
 workspace key currently owns, how ids are previewed, committed and
 invalidated, and when two (group, slot) pairs share one key.
 */
module WorkspaceLifecycle {
  import opened Wrappers

  datatype SessionState = SessionState(sessionId: Option<string>, backend: Option<string>, everCommitted: bool)

  /** What `get_state` reports for a key that was never touched. */
  const UNTOUCHED := SessionState(None, None, false)

  /** What a key holds after `invalidate`. */
  const INVALIDATED := SessionState(None, None, true)

  /** The session store: its table and how many new ids have been drawn so far. */
  datatype Store = Store(states: map<string, SessionState>, draws: nat)

  /** The n-th id the store's factory hands out for a key. */
  type Factory = (string, nat) -> string

  /** The state a caller can observe; an absent key looks untouched. */
  function GetState(store: Store, key: string): SessionState {
    if key in store.states then store.states[key] else UNTOUCHED
  }

  /** `setdefault`: an absent key becomes present, holding the untouched state. */
  function Touch(store: Store, key: string): Store {
    store.(states := store.states[key := GetState(store, key)])
  }

  datatype Preview = Preview(sessionId: string, store: Store)

  function PreviewSessionId(factory: Factory, store: Store, key: string, backend: string, freshSession: bool): Preview {
    var state := GetState(store, key);
    var touched := Touch(store, key);
    if !freshSession && state.sessionId.Some? && state.backend == Some(backend) then
      Preview(state.sessionId.value, touched)
    else if state.sessionId.None? && !state.everCommitted then
      Preview(key, touched)
    else
      Preview(factory(key, store.draws), touched.(draws := store.draws + 1))
  }

  function CommitSuccess(store: Store, key: string, backend: string, sessionId: string): Store {
    store.(states := store.states[key := SessionState(Some(sessionId), Some(backend), true)])
  }

  function Invalidate(store: Store, key: string): Store {
    store.(states := store.states[key := INVALIDATED])
  }

  // ---- workspace keys -------------------------------------------------

  const SLOT_INFIX := "#slot:"

  function BuildSlotWorkspaceKey(group: string, slot: string): string {
    group + SLOT_INFIX + slot
  }

  predicate NoHash(s: string) {
    '#' !in s
  }

  /** The text by which `longer` can swallow the shorter pair's separator. */
  ghost predicate Swallows(group: string, slot: string, longer: string, rest: string) {
    exists t: string :: longer == group + SLOT_INFIX + t && slot == t + SLOT_INFIX + rest
  }

  lemma SplitEqualKeys(g1: string, s1: string, g2: string, s2: string)
    requires BuildSlotWorkspaceKey(g1, s1) == BuildSlotWorkspaceKey(g2, s2)
    requires |g1| < |g2|
    ensures Swallows(g1, s1, g2, s2)
  {
    var k := BuildSlotWorkspaceKey(g1, s1);
    assert k == BuildSlotWorkspaceKey(g2, s2);
    assert k[..|g2|] == g2 && k[|g2| + 6..] == s2 && k[|g2|..|g2| + 6] == SLOT_INFIX;
    assert k[|g1|..|g1| + 6] == SLOT_INFIX && k[|g1| + 6..] == s1 && k[..|g1|] == g1;
    // '#' occurs only at the front of the infix, so the two infixes cannot overlap
    assert k[|g2|] == k[|g2|..|g2| + 6][0] == '#';
    assert forall d | 0 < d < 6 :: k[|g1| + d] == k[|g1|..|g1| + 6][d] == SLOT_INFIX[d] != '#';
    assert |g1| + 6 <= |g2|;
    var t := g2[|g1| + 6..];
    assert t == k[|g1| + 6..|g2|];
    assert g2 == g1 + SLOT_INFIX + t by {
      assert g2 == g2[..|g1|] + g2[|g1|..|g1| + 6] + g2[|g1| + 6..];
      assert g2[..|g1|] == k[..|g1|];
      assert g2[|g1|..|g1| + 6] == k[|g1|..|g1| + 6];
    }
    assert s1 == t + SLOT_INFIX + s2 by {
      assert k[|g1| + 6..] == k[|g1| + 6..|g2|] + k[|g2|..|g2| + 6] + k[|g2| + 6..];
    }
  }

  /** Two pairs share a key exactly when they are equal or one group swallows the other's separator. */
  lemma KeysCollideExactlyWhen(g1: string, s1: string, g2: string, s2: string)
    ensures BuildSlotWorkspaceKey(g1, s1) == BuildSlotWorkspaceKey(g2, s2)
            <==> (g1 == g2 && s1 == s2) || Swallows(g1, s1, g2, s2) || Swallows(g2, s2, g1, s1)
  {
    if BuildSlotWorkspaceKey(g1, s1) == BuildSlotWorkspaceKey(g2, s2) {
      var k := BuildSlotWorkspaceKey(g1, s1);
      if |g1| < |g2| {
        SplitEqualKeys(g1, s1, g2, s2);
      } else if |g2| < |g1| {
        SplitEqualKeys(g2, s2, g1, s1);
      } else {
        assert k[..|g1|] == g1 && k[..|g2|] == g2;
        assert k[|g1| + 6..] == s1 && k[|g2| + 6..] == s2;
      }
    }
  }

  /** Slot ids accepted by the slot service contain no '#', and then keys are injective. */
  lemma KeysInjectiveWithoutHash(g1: string, s1: string, g2: string, s2: string)
    requires NoHash(s1) && NoHash(s2)
    requires BuildSlotWorkspaceKey(g1, s1) == BuildSlotWorkspaceKey(g2, s2)
    ensures g1 == g2 && s1 == s2
  {
    KeysCollideExactlyWhen(g1, s1, g2, s2);
  }

  // ---- life of one store ----------------------------------------------

  datatype StoreOp =
    | PreviewOp(key: string, backend: string, freshSession: bool)
    | CommitOp(key: string, backend: string, sessionId: string)
    | InvalidateOp(key: string)

  function ApplyOp(factory: Factory, store: Store, op: StoreOp): Store {
    match op
    case PreviewOp(key, backend, freshSession) => PreviewSessionId(factory, store, key, backend, freshSession).store
    case CommitOp(key, backend, sessionId) => CommitSuccess(store, key, backend, sessionId)
    case InvalidateOp(key) => Invalidate(store, key)
  }

  function ApplyOps(factory: Factory, store: Store, ops: seq<StoreOp>): Store
    decreases |ops|
  {
    if ops == [] then store else ApplyOps(factory, ApplyOp(factory, store, ops[0]), ops[1..])
  }

  lemma {:induction false} CommittedForever(factory: Factory, store: Store, ops: seq<StoreOp>, key: string)
    requires GetState(store, key).everCommitted
    ensures GetState(ApplyOps(factory, store, ops), key).everCommitted
    decreases |ops|
  {
    if ops != [] {
      CommittedForever(factory, ApplyOp(factory, store, ops[0]), ops[1..], key);
    }
  }

  /**
   Once a key has been committed or invalidated, whatever happens to the store
   afterwards, a preview returns either the id committed for that very backend
   or a newly drawn id: the bare key comes back only as a committed id.
   */
  lemma BareKeyNeverReissued(factory: Factory, store: Store, first: StoreOp, ops: seq<StoreOp>,
                             backend: string, freshSession: bool)
    requires first.CommitOp? || first.InvalidateOp?
    requires forall n: nat :: factory(first.key, n) != first.key
    ensures var after := ApplyOps(factory, ApplyOp(factory, store, first), ops);
            var preview := PreviewSessionId(factory, after, first.key, backend, freshSession);
            && (preview.sessionId == first.key ==>
                  !freshSession && GetState(after, first.key).sessionId == Some(first.key)
                  && GetState(after, first.key).backend == Some(backend))
            && (freshSession ==> preview.sessionId == factory(first.key, after.draws))
  {
    CommittedForever(factory, ApplyOp(factory, store, first), ops, first.key);
  }

  /** Previewing, however often and for whichever key, is invisible through `get_state`. */
  lemma {:induction false} PreviewsInvisible(factory: Factory, store: Store, ops: seq<StoreOp>, key: string)
    requires forall op :: op in ops ==> op.PreviewOp?
    ensures GetState(ApplyOps(factory, store, ops), key) == GetState(store, key)
    decreases |ops|
  {
    if ops != [] {
      assert ops[0].PreviewOp?;
      PreviewsInvisible(factory, ApplyOp(factory, store, ops[0]), ops[1..], key);
    }
  }

  // ---- the store object -----------------------------------------------

  /** The store as the source writes it: a table updated in place and an id factory. */
  class WorkspaceSessionStore {
    var states: map<string, SessionState>
    var draws: nat
    const factory: Factory

    constructor (factory: Factory)
      ensures Value() == Store(map[], 0) && this.factory == factory
    {
      this.states, this.draws, this.factory := map[], 0, factory;
    }

    function Value(): Store
      reads this
    {
      Store(states, draws)
    }

    method Preview(key: string, backend: string, freshSession: bool) returns (sessionId: string)
      modifies this
      ensures var p := PreviewSessionId(factory, old(Value()), key, backend, freshSession);
              sessionId == p.sessionId && Value() == p.store
      ensures forall k :: GetState(Value(), k) == old(GetState(Value(), k))
    {
      if key !in states {
        states := states[key := UNTOUCHED];
      }
      var state := states[key];
      assert states == old(Touch(Value(), key)).states;
      if !freshSession && state.sessionId.Some? && state.backend == Some(backend) {
        return state.sessionId.value;
      }
      if state.sessionId.None? && !state.everCommitted {
        return key;
      }
      sessionId := factory(key, draws);
      draws := draws + 1;
    }

    method Commit(key: string, backend: string, sessionId: string)
      modifies this`states
      ensures Value() == CommitSuccess(old(Value()), key, backend, sessionId)
      ensures GetState(Value(), key) == SessionState(Some(sessionId), Some(backend), true)
      ensures forall k | k != key :: GetState(Value(), k) == old(GetState(Value(), k))
    {
      states := states[key := SessionState(Some(sessionId), Some(backend), true)];
    }

    method Drop(key: string)
      modifies this`states
      ensures Value() == Invalidate(old(Value()), key)
      ensures GetState(Value(), key) == INVALIDATED
      ensures forall k | k != key :: GetState(Value(), k) == old(GetState(Value(), k))
    {
      states := states[key := INVALIDATED];
    }
  }
}
