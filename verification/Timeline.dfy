/**
 The merged history timeline and the result lists of services/terminal_sessions.py:
 deduplication over the three places a snapshot can come from, filtering,
 sorting and paging.
 */
module Timeline {
  import opened Wrappers
  import opened Strings
  import opened Sorting
  import opened TerminalLife

  /** What the merge looks at in a snapshot; `output` stands for everything else it carries. */
  datatype Snapshot = Snapshot(id: Text, owner: Text, status: SessionStatus, at: int, output: Text)

  // ---- merging --------------------------------------------------------

  function Sources(inMemory: Option<Snapshot>, latest: Option<Snapshot>, archived: seq<Snapshot>): seq<Snapshot> {
    (if inMemory.Some? then [inMemory.value] else []) + (if latest.Some? then [latest.value] else []) + archived
  }

  /** Among the first n sources, the one at k is the newest of its session, and the earliest of those equally new. */
  ghost predicate Winner(sources: seq<Snapshot>, n: nat, k: nat)
    requires n <= |sources|
  {
    k < n && forall j :: 0 <= j < n && sources[j].id == sources[k].id ==>
      sources[j].at < sources[k].at || (sources[j].at == sources[k].at && k <= j)
  }

  ghost predicate Wins(sources: seq<Snapshot>, n: nat, snapshot: Snapshot)
    requires n <= |sources|
  {
    exists k: nat :: Winner(sources, n, k) && sources[k] == snapshot
  }

  /** The dictionary after the first n sources: each session seen so far is there, with its winner. */
  ghost predicate MergedUpTo(sources: seq<Snapshot>, n: nat, bySession: map<Text, Snapshot>)
    requires n <= |sources|
  {
    && (forall k :: 0 <= k < n ==> sources[k].id in bySession)
    && (forall id {:trigger bySession[id]} | id in bySession ::
          bySession[id].id == id && Wins(sources, n, bySession[id]))
  }

  function Keep(bySession: map<Text, Snapshot>, next: Snapshot): map<Text, Snapshot> {
    if next.id in bySession && next.at <= bySession[next.id].at then bySession else bySession[next.id := next]
  }

  /** A winner stays one unless the next source is a newer snapshot of the same session. */
  lemma StillWins(sources: seq<Snapshot>, n: nat, snapshot: Snapshot)
    requires n < |sources| && Wins(sources, n, snapshot)
    ensures sources[n].id == snapshot.id ==> sources[n].at <= snapshot.at ==> Wins(sources, n + 1, snapshot)
    ensures sources[n].id != snapshot.id ==> Wins(sources, n + 1, snapshot)
    ensures sources[n].id == snapshot.id && sources[n].at > snapshot.at ==> Wins(sources, n + 1, sources[n])
  {
    var k: nat :| Winner(sources, n, k) && sources[k] == snapshot;
    if sources[n].id == snapshot.id && sources[n].at > snapshot.at {
      assert Winner(sources, n + 1, n);
    } else {
      assert Winner(sources, n + 1, k);
    }
  }

  lemma MergeOne(sources: seq<Snapshot>, n: nat, bySession: map<Text, Snapshot>)
    requires n < |sources| && MergedUpTo(sources, n, bySession)
    ensures MergedUpTo(sources, n + 1, Keep(bySession, sources[n]))
  {
    var next, merged := sources[n], Keep(bySession, sources[n]);
    forall id | id in merged ensures merged[id].id == id && Wins(sources, n + 1, merged[id]) {
      if id in bySession {
        assert bySession[id].id == id && Wins(sources, n, bySession[id]);
        StillWins(sources, n, bySession[id]);
      } else {
        FirstWins(sources, n);
      }
    }
  }

  /** The first snapshot of a session wins for the time being. */
  lemma FirstWins(sources: seq<Snapshot>, n: nat)
    requires n < |sources| && forall k :: 0 <= k < n ==> sources[k].id != sources[n].id
    ensures Wins(sources, n + 1, sources[n])
  {
    assert Winner(sources, n + 1, n);
  }

  /** The dictionary's insertion order lists each of its keys once. */
  ghost predicate ListsKeys(order: seq<Text>, bySession: map<Text, Snapshot>) {
    && (forall i :: 0 <= i < |order| ==> order[i] in bySession)
    && (forall id | id in bySession :: id in order)
    && (forall i, j :: 0 <= i < j < |order| ==> order[i] != order[j])
  }

  lemma ListOne(order: seq<Text>, bySession: map<Text, Snapshot>, next: Snapshot)
    requires ListsKeys(order, bySession)
    ensures ListsKeys(if next.id in bySession then order else order + [next.id], Keep(bySession, next))
  {
  }

  ghost predicate MergeState(sources: seq<Snapshot>, n: nat, order: seq<Text>, bySession: map<Text, Snapshot>) {
    n <= |sources| && MergedUpTo(sources, n, bySession) && ListsKeys(order, bySession)
  }

  lemma MergeStep(sources: seq<Snapshot>, n: nat, order: seq<Text>, bySession: map<Text, Snapshot>)
    requires n < |sources| && MergeState(sources, n, order, bySession)
    ensures MergeState(sources, n + 1, if sources[n].id in bySession then order else order + [sources[n].id],
                       Keep(bySession, sources[n]))
  {
    MergeOne(sources, n, bySession);
    ListOne(order, bySession, sources[n]);
  }

  function Values(order: seq<Text>, bySession: map<Text, Snapshot>): seq<Snapshot>
    requires forall i :: 0 <= i < |order| ==> order[i] in bySession
  {
    seq(|order|, i requires 0 <= i < |order| => bySession[order[i]])
  }

  ghost predicate HasId(items: seq<Snapshot>, id: Text) {
    exists i :: 0 <= i < |items| && items[i].id == id
  }

  lemma ValuesAreWinners(sources: seq<Snapshot>, order: seq<Text>, bySession: map<Text, Snapshot>)
    requires MergeState(sources, |sources|, order, bySession)
    ensures var merged := Values(order, bySession);
            && DistinctIds(merged)
            && (forall i :: 0 <= i < |merged| ==> Wins(sources, |sources|, merged[i]))
            && (forall k :: 0 <= k < |sources| ==> HasId(merged, sources[k].id))
  {
    var merged := Values(order, bySession);
    forall i | 0 <= i < |merged| ensures Wins(sources, |sources|, merged[i]) && merged[i].id == order[i] {
      assert merged[i] == bySession[order[i]];
    }
    forall k | 0 <= k < |sources| ensures HasId(merged, sources[k].id) {
      var i :| 0 <= i < |order| && order[i] == sources[k].id;
      assert merged[i].id == sources[k].id;
    }
  }

  /** The body of the merging loop. */
  method Absorb(order: seq<Text>, bySession: map<Text, Snapshot>, snapshot: Snapshot)
      returns (nextOrder: seq<Text>, next: map<Text, Snapshot>)
    ensures nextOrder == if snapshot.id in bySession then order else order + [snapshot.id]
    ensures next == Keep(bySession, snapshot)
  {
    if snapshot.id !in bySession {
      return order + [snapshot.id], bySession[snapshot.id := snapshot];
    }
    if snapshot.at > bySession[snapshot.id].at {
      return order, bySession[snapshot.id := snapshot];
    }
    return order, bySession;
  }

  /** Main result: one entry per session, and it is the newest, with ties going to the earlier source. */
  method DedupeTimeline(inMemory: Option<Snapshot>, latest: Option<Snapshot>, archived: seq<Snapshot>)
      returns (merged: seq<Snapshot>)
    ensures DistinctIds(merged)
    ensures var sources := Sources(inMemory, latest, archived);
            && (forall i :: 0 <= i < |merged| ==> Wins(sources, |sources|, merged[i]))
            && (forall k :: 0 <= k < |sources| ==> HasId(merged, sources[k].id))
  {
    var sources := Sources(inMemory, latest, archived);
    var bySession: map<Text, Snapshot> := map[];
    var order: seq<Text> := [];
    for n := 0 to |sources|
      invariant MergeState(sources, n, order, bySession)
    {
      MergeStep(sources, n, order, bySession);
      order, bySession := Absorb(order, bySession, sources[n]);
    }
    ValuesAreWinners(sources, order, bySession);
    merged := Values(order, bySession);
  }

  predicate DistinctIds(items: seq<Snapshot>) {
    forall i, j :: 0 <= i < j < |items| ==> items[i].id != items[j].id
  }

  // ---- the lists that are sorted --------------------------------------

  /** `(snapshot_at, session_id)` in reverse. */
  predicate Newer(a: Snapshot, b: Snapshot) {
    KeyLess(Key([b.at], b.id), Key([a.at], a.id))
  }

  /** A search hit; `relevance` is the whole numeric part of its relevance key. */
  datatype Hit = Hit(snapshot: Snapshot, matchCount: int, relevance: seq<int>)

  datatype SearchSort = Relevance | Newest | Oldest

  function HitKey(sort: SearchSort, h: Hit): Key {
    match sort
    case Relevance => Key(h.relevance, h.snapshot.id)
    case Newest => Key([-h.snapshot.at, -h.matchCount], h.snapshot.id)
    case Oldest => Key([h.snapshot.at, -h.matchCount], h.snapshot.id)
  }

  function HitBefore(sort: SearchSort): (Hit, Hit) -> bool {
    (a, b) => KeyLess(HitKey(sort, a), HitKey(sort, b))
  }

  lemma NewerIsOrder()
    ensures StrictOrder(Newer)
  {
    forall a, b ensures Newer(a, b) ==> !Newer(b, a) {
      KeyOrder(Key([a.at], a.id), Key([b.at], b.id), Key([a.at], a.id));
    }
    forall a, b, c ensures Newer(a, b) && Newer(b, c) ==> Newer(a, c) {
      KeyOrder(Key([c.at], c.id), Key([b.at], b.id), Key([a.at], a.id));
    }
  }

  lemma HitBeforeIsOrder(sort: SearchSort)
    ensures StrictOrder(HitBefore(sort))
  {
    var before := HitBefore(sort);
    forall a, b ensures before(a, b) ==> !before(b, a) {
      KeyOrder(HitKey(sort, a), HitKey(sort, b), HitKey(sort, a));
    }
    forall a, b, c ensures before(a, b) && before(b, c) ==> before(a, c) {
      KeyOrder(HitKey(sort, a), HitKey(sort, b), HitKey(sort, c));
    }
  }

  /** `_list_merged_history_snapshots_by_group`: newest first. */
  function Timeline(merged: seq<Snapshot>): seq<Snapshot> {
    Sort(Newer, merged)
  }

  /** Main result: the timeline strictly descends in (time, id), whatever order the merge listed its entries in. */
  lemma TimelineDescends(merged: seq<Snapshot>, shuffled: seq<Snapshot>)
    requires DistinctIds(merged) && DistinctIds(shuffled) && multiset(shuffled) == multiset(merged)
    ensures Sorted(Newer, Timeline(merged)) && multiset(Timeline(merged)) == multiset(merged)
    ensures Timeline(shuffled) == Timeline(merged)
    ensures forall i, j :: 0 <= i < j < |Timeline(merged)| ==>
              var a, b := Timeline(merged)[i], Timeline(merged)[j];
              a.at > b.at || (a.at == b.at && LexLess(b.id, a.id))
  {
    NewerIsOrder();
    DistinctAreComparable(merged);
    DistinctAreComparable(shuffled);
    SortIsCanonical(Newer, merged, shuffled);
  }

  lemma DistinctAreComparable(items: seq<Snapshot>)
    requires DistinctIds(items)
    ensures Comparable(Newer, items)
  {
    forall i, j | 0 <= i < j < |items| ensures Newer(items[i], items[j]) || Newer(items[j], items[i]) {
      KeyOrder(Key([items[i].at], items[i].id), Key([items[j].at], items[j].id), Key([], []));
    }
  }

  predicate DistinctHits(hits: seq<Hit>) {
    forall i, j :: 0 <= i < j < |hits| ==> hits[i].snapshot.id != hits[j].snapshot.id
  }

  /** What each order puts first: the relevance key, the time and then the match count, and at last the id. */
  predicate Precedes(sort: SearchSort, a: Hit, b: Hit) {
    var later, sameTime := a.snapshot.at > b.snapshot.at, a.snapshot.at == b.snapshot.at;
    var byId := LexLess(a.snapshot.id, b.snapshot.id);
    match sort
    case Relevance => LexLess(a.relevance, b.relevance) || (a.relevance == b.relevance && byId)
    case Newest => later || (sameTime && (a.matchCount > b.matchCount || (a.matchCount == b.matchCount && byId)))
    case Oldest =>
      || (!later && !sameTime)
      || (sameTime && (a.matchCount > b.matchCount || (a.matchCount == b.matchCount && byId)))
  }

  lemma BeforePrecedes(sort: SearchSort, a: Hit, b: Hit)
    requires HitBefore(sort)(a, b)
    ensures Precedes(sort, a, b)
  {
    var p, q := HitKey(sort, a).parts, HitKey(sort, b).parts;
    if !sort.Relevance? {
      LexPair(p[0], p[1], q[0], q[1]);
    }
  }

  /** Main result: each search order is decided by the hits alone, because its key ends in a distinct session id. */
  lemma SearchOrderCanonical(sort: SearchSort, hits: seq<Hit>, shuffled: seq<Hit>)
    requires DistinctHits(hits) && DistinctHits(shuffled) && multiset(shuffled) == multiset(hits)
    ensures Sort(HitBefore(sort), shuffled) == Sort(HitBefore(sort), hits)
    ensures Sorted(HitBefore(sort), Sort(HitBefore(sort), hits))
    ensures forall i, j :: 0 <= i < j < |Sort(HitBefore(sort), hits)| ==>
              Precedes(sort, Sort(HitBefore(sort), hits)[i], Sort(HitBefore(sort), hits)[j])
    ensures multiset(Sort(HitBefore(sort), hits)) == multiset(hits)
  {
    HitBeforeIsOrder(sort);
    HitsAreComparable(sort, hits);
    HitsAreComparable(sort, shuffled);
    SortIsCanonical(HitBefore(sort), hits, shuffled);
    var sorted := Sort(HitBefore(sort), hits);
    forall i, j | 0 <= i < j < |sorted| ensures Precedes(sort, sorted[i], sorted[j]) {
      assert HitBefore(sort)(sorted[i], sorted[j]);
      BeforePrecedes(sort, sorted[i], sorted[j]);
    }
  }

  lemma HitsAreComparable(sort: SearchSort, hits: seq<Hit>)
    requires DistinctHits(hits)
    ensures Comparable(HitBefore(sort), hits)
  {
    var before := HitBefore(sort);
    forall i, j | 0 <= i < j < |hits| ensures before(hits[i], hits[j]) || before(hits[j], hits[i]) {
      KeyOrder(HitKey(sort, hits[i]), HitKey(sort, hits[j]), Key([], []));
    }
  }

  // ---- filtering ------------------------------------------------------

  datatype Criteria = Criteria(
    status: Option<SessionStatus>, owner: Option<Text>, idPrefix: Option<Text>, from: Option<int>, to: Option<int>)

  /** A blank owner or id prefix is no criterion. */
  predicate Passes(c: Criteria, s: Snapshot) {
    && (c.status.Some? ==> s.status == c.status.value)
    && (NonBlank(c.owner).Some? ==> s.owner == NonBlank(c.owner).value)
    && (NonBlank(c.idPrefix).Some? ==> NonBlank(c.idPrefix).value <= s.id)
    && (c.from.Some? ==> c.from.value <= s.at)
    && (c.to.Some? ==> s.at <= c.to.value)
  }

  function Filtered(c: Criteria, items: seq<Snapshot>): seq<Snapshot> {
    if items == [] then []
    else
      var init, last := Filtered(c, items[..|items| - 1]), items[|items| - 1];
      if Passes(c, last) then init + [last] else init
  }

  /** `_filter_history_snapshots`, which refuses bounds that cross. */
  method FilterHistorySnapshots(c: Criteria, items: seq<Snapshot>) returns (filtered: Option<seq<Snapshot>>)
    ensures filtered.None? <==> c.from.Some? && c.to.Some? && c.from.value > c.to.value
    ensures filtered.Some? ==> filtered.value == Filtered(c, items)
  {
    if c.from.Some? && c.to.Some? && c.from.value > c.to.value {
      return None;
    }
    var owner, idPrefix := NonBlank(c.owner), NonBlank(c.idPrefix);
    var kept: seq<Snapshot> := [];
    for i := 0 to |items|
      invariant kept == Filtered(c, items[..i])
    {
      assert items[..i + 1][..i] == items[..i];
      var s := items[i];
      if c.status.Some? && s.status != c.status.value { continue; }
      if owner.Some? && s.owner != owner.value { continue; }
      if idPrefix.Some? && !(idPrefix.value <= s.id) { continue; }
      if c.from.Some? && s.at < c.from.value { continue; }
      if c.to.Some? && s.at > c.to.value { continue; }
      kept := kept + [s];
    }
    assert items[..|items|] == items;
    filtered := Some(kept);
  }

  /** Filtering keeps exactly the entries that pass, and their order. */
  lemma {:induction false} FilteredIs(c: Criteria, items: seq<Snapshot>)
    ensures forall s :: s in Filtered(c, items) <==>
              && s in items
              && (c.status.Some? ==> s.status == c.status.value)
              && (NonBlank(c.owner).Some? ==> s.owner == NonBlank(c.owner).value)
              && (NonBlank(c.idPrefix).Some? ==>
                    |NonBlank(c.idPrefix).value| <= |s.id|
                    && s.id[..|NonBlank(c.idPrefix).value|] == NonBlank(c.idPrefix).value)
              && (c.from.Some? ==> c.from.value <= s.at) && (c.to.Some? ==> s.at <= c.to.value)
    ensures Sorted(Newer, items) ==> Sorted(Newer, Filtered(c, items))
  {
    if items != [] {
      var init, last := items[..|items| - 1], items[|items| - 1];
      assert items == init + [last];
      FilteredIs(c, init);
      forall i | 0 <= i < |Filtered(c, init)| && Sorted(Newer, items) ensures Newer(Filtered(c, init)[i], last) {
        assert Filtered(c, init)[i] in init;
      }
    }
  }

  // ---- paging ---------------------------------------------------------

  datatype Page<T> = Page(items: seq<T>, hasMore: bool, total: nat)

  function PageOf<T>(items: seq<T>, limit: nat, offset: nat): Page<T> {
    var from := if offset < |items| then offset else |items|;
    var to := if offset + limit < |items| then offset + limit else |items|;
    Page(items[from..to], offset + limit < |items|, |items|)
  }

  /** A client that asks for the next page as long as it is told that there is more. */
  function FollowPages<T>(items: seq<T>, limit: nat, offset: nat): seq<T>
    requires limit > 0
    decreases |items| - offset
  {
    var page := PageOf(items, limit, offset);
    if page.hasMore then page.items + FollowPages(items, limit, offset + limit) else page.items
  }

  /** Main result: the pages together are the list, each entry once and in order. */
  lemma {:induction false} PagesReproduceList<T>(items: seq<T>, limit: nat, offset: nat)
    requires limit > 0 && offset <= |items|
    ensures FollowPages(items, limit, offset) == items[offset..]
    ensures |PageOf(items, limit, offset).items| <= limit
    ensures PageOf(items, limit, offset).hasMore ==> |PageOf(items, limit, offset).items| == limit
    ensures PageOf(items, limit, offset).hasMore <==> offset + |PageOf(items, limit, offset).items| < |items|
    ensures PageOf(items, limit, offset).total == |items|
    decreases |items| - offset
  {
    if offset + limit < |items| {
      PagesReproduceList(items, limit, offset + limit);
    }
  }
}
