/**
 The case-insensitive matcher and the snippets of the history search in
 services/terminal_sessions.py. Lower-casing is a map of single characters, so
 an offset into the lowered text is an offset into the text.
 */
module SearchMatcher {
  import opened Wrappers
  import opened Strings

  type Lowering = CodePoint -> CodePoint

  function Lower(lower: Lowering, t: Text): (r: Text)
    ensures |r| == |t|
  {
    seq(|t|, i requires 0 <= i < |t| => lower(t[i]))
  }

  /** The query occurs at an offset when it and the text there differ at most in case. */
  predicate MatchAt(lower: Lowering, text: Text, query: Text, offset: nat) {
    offset + |query| <= |text| && forall k :: 0 <= k < |query| ==> lower(text[offset + k]) == lower(query[k])
  }

  /** A list of matches, in order, none of them overlapping the next. */
  predicate Spaced(offsets: seq<nat>, width: nat) {
    forall i, j :: 0 <= i < j < |offsets| ==> offsets[i] + width <= offsets[j]
  }

  /** Every match before `bound` is covered by a listed one that starts at it or overlaps it from the left. */
  ghost predicate NoneSkipped(lower: Lowering, text: Text, query: Text, offsets: seq<nat>, bound: nat) {
    forall m: nat {:trigger CoveredBy(offsets, |query|, m)} | m < bound && MatchAt(lower, text, query, m) ::
      CoveredBy(offsets, |query|, m)
  }

  ghost predicate CoveredBy(offsets: seq<nat>, width: nat, m: nat) {
    exists j :: 0 <= j < |offsets| && offsets[j] <= m < offsets[j] + width
  }

  lemma LoweredMatch(lower: Lowering, text: Text, query: Text, offset: nat)
    ensures OccursAt(Lower(lower, text), Lower(lower, query), offset) <==> MatchAt(lower, text, query, offset)
  {
    var hay, needle := Lower(lower, text), Lower(lower, query);
    if OccursAt(hay, needle, offset) {
      forall k | 0 <= k < |query| ensures lower(text[offset + k]) == lower(query[k]) {
        assert hay[offset..offset + |needle|][k] == needle[k];
      }
    }
    if MatchAt(lower, text, query, offset) {
      assert hay[offset..offset + |needle|] == needle;
    }
  }

  /** Main result: the matches found are true, do not overlap, and skip none between them. */
  method FindMatchOffsets(lower: Lowering, text: Text, query: Text) returns (offsets: seq<nat>)
    ensures query == [] ==> offsets == []
    ensures forall j :: 0 <= j < |offsets| ==> MatchAt(lower, text, query, offsets[j])
    ensures Spaced(offsets, if query == [] then 1 else |query|)
    ensures query != [] ==> NoneSkipped(lower, text, query, offsets, |text| + 1)
  {
    offsets := [];
    if text == [] || query == [] {
      return;
    }
    var loweredText, loweredQuery := Lower(lower, text), Lower(lower, query);
    var position := 0;
    while true
      invariant forall j :: 0 <= j < |offsets| ==> MatchAt(lower, text, query, offsets[j])
      invariant Spaced(offsets, |query|)
      invariant forall j :: 0 <= j < |offsets| ==> offsets[j] + |query| <= position
      invariant position <= |text|
      invariant NoneSkipped(lower, text, query, offsets, position)
      decreases |text| - position
    {
      var found := Find(loweredText, loweredQuery, position);
      ghost var next := if found.Some? then found.value else |text| + 1;
      forall m: nat | position <= m < next ensures !MatchAt(lower, text, query, m) {
        LoweredMatch(lower, text, query, m);
      }
      if found.None? {
        break;
      }
      LoweredMatch(lower, text, query, found.value);
      AddMatch(lower, text, query, offsets, position, found.value);
      offsets := offsets + [found.value];
      position := found.value + |query|;
    }
  }

  lemma AddMatch(lower: Lowering, text: Text, query: Text, offsets: seq<nat>, position: nat, found: nat)
    requires NoneSkipped(lower, text, query, offsets, position) && position <= found
    requires forall m: nat | position <= m < found :: !MatchAt(lower, text, query, m)
    ensures NoneSkipped(lower, text, query, offsets + [found], found + |query|)
  {
    var longer := offsets + [found];
    forall m: nat | m < found + |query| && MatchAt(lower, text, query, m)
      ensures CoveredBy(longer, |query|, m)
    {
      if m < position {
        assert CoveredBy(offsets, |query|, m);
        var j :| 0 <= j < |offsets| && offsets[j] <= m < offsets[j] + |query|;
        assert longer[j] == offsets[j];
      } else {
        assert longer[|offsets|] == found;
      }
    }
  }

  /** Any two of these matches are at least a query apart. */
  ghost predicate Disjoint(matches: set<nat>, width: nat) {
    forall a, b | a in matches && b in matches && a < b :: a + width <= b
  }

  /** Each of these matches is covered by one of the offsets. */
  ghost predicate Covers(offsets: seq<nat>, width: nat, matches: set<nat>) {
    forall m {:trigger CoveredBy(offsets, width, m)} | m in matches :: CoveredBy(offsets, width, m)
  }

  /** One offset covers at most one of several matches that do not overlap. */
  lemma {:induction false} CoveringBounds(offsets: seq<nat>, width: nat, matches: set<nat>)
    requires Covers(offsets, width, matches) && Disjoint(matches, width)
    ensures |matches| <= |offsets|
  {
    if offsets == [] {
      assert forall m | m in matches :: !CoveredBy(offsets, width, m);
      assert matches == {};
    } else {
      var start, others := offsets[0], offsets[1..];
      var covered := set m | m in matches && start <= m < start + width;
      AtMostOneCovered(matches, covered, start, width);
      OthersCover(offsets, width, matches - covered);
      CoveringBounds(others, width, matches - covered);
      assert matches == (matches - covered) + covered;
    }
  }

  lemma OthersCover(offsets: seq<nat>, width: nat, matches: set<nat>)
    requires offsets != [] && Covers(offsets, width, matches)
    requires forall m | m in matches :: !(offsets[0] <= m < offsets[0] + width)
    ensures Covers(offsets[1..], width, matches)
  {
    var others := offsets[1..];
    forall m | m in matches ensures CoveredBy(others, width, m) {
      assert CoveredBy(offsets, width, m);
      var j :| 0 <= j < |offsets| && offsets[j] <= m < offsets[j] + width;
      assert others[j - 1] == offsets[j];
    }
  }

  lemma AtMostOneCovered(matches: set<nat>, covered: set<nat>, start: nat, width: nat)
    requires Disjoint(matches, width) && covered <= matches
    requires forall x | x in covered :: start <= x < start + width
    ensures |covered| <= 1
  {
    if covered != {} {
      var x :| x in covered;
      assert forall y | y in covered :: !(y < x) && !(x < y);
      assert covered == {x};
    }
  }

  ghost function SetOf(offsets: seq<nat>): set<nat> {
    set o | o in offsets
  }

  lemma SpacedSet(offsets: seq<nat>, width: nat)
    requires Spaced(offsets, width) && width > 0
    ensures |SetOf(offsets)| == |offsets| && Disjoint(SetOf(offsets), width)
  {
    var s := SetOf(offsets);
    DistinctCount(offsets);
    forall a, b | a in s && b in s && a < b ensures a + width <= b {
      var i :| 0 <= i < |offsets| && offsets[i] == a;
      var j :| 0 <= j < |offsets| && offsets[j] == b;
      assert i < j;
    }
  }

  lemma {:induction false} DistinctCount(offsets: seq<nat>)
    requires forall i, j :: 0 <= i < j < |offsets| ==> offsets[i] != offsets[j]
    ensures |SetOf(offsets)| == |offsets|
  {
    if offsets == [] {
      assert SetOf(offsets) == {};
    } else {
      var init, last := offsets[..|offsets| - 1], offsets[|offsets| - 1];
      DistinctCount(init);
      assert last !in init;
      assert offsets == init + [last];
      assert SetOf(offsets) == SetOf(init) + {last};
    }
  }

  /** Main result: the number of matches found is the most that pairwise non-overlapping matches can have. */
  lemma MatchCountIsMaximum(lower: Lowering, text: Text, query: Text, offsets: seq<nat>, matches: set<nat>)
    requires query != [] && Spaced(offsets, |query|) && NoneSkipped(lower, text, query, offsets, |text| + 1)
    requires Disjoint(matches, |query|) && forall m | m in matches :: MatchAt(lower, text, query, m)
    ensures |matches| <= |offsets|
    ensures |SetOf(offsets)| == |offsets| && Disjoint(SetOf(offsets), |query|)
  {
    assert Covers(offsets, |query|, matches) by {
      assert forall m | m in matches :: MatchAt(lower, text, query, m);
    }
    CoveringBounds(offsets, |query|, matches);
    SpacedSet(offsets, |query|);
  }

  /** The description of a full scan's result. */
  ghost predicate IsScan(lower: Lowering, text: Text, query: Text, offsets: seq<nat>) {
    && (forall j :: 0 <= j < |offsets| ==> MatchAt(lower, text, query, offsets[j]))
    && Spaced(offsets, |query|) && NoneSkipped(lower, text, query, offsets, |text| + 1)
  }

  /** It has exactly one solution: the scan is canonical. */
  lemma ScanIsUnique(lower: Lowering, text: Text, query: Text, a: seq<nat>, b: seq<nat>)
    requires query != [] && IsScan(lower, text, query, a) && IsScan(lower, text, query, b)
    ensures a == b
  {
    SameUpTo(lower, text, query, a, b, |a|);
    SameUpTo(lower, text, query, b, a, |b|);
  }

  /** The listed match that covers a match; among those with the same start up to n it comes at n or later. */
  lemma CoverIndex(lower: Lowering, text: Text, query: Text, a: seq<nat>, b: seq<nat>, n: nat) returns (j: nat)
    requires query != [] && IsScan(lower, text, query, a) && IsScan(lower, text, query, b)
    requires n < |a| && n <= |b| && forall i :: 0 <= i < n ==> a[i] == b[i]
    ensures n <= j < |b| && b[n] <= a[n]
  {
    assert MatchAt(lower, text, query, a[n]) && CoveredBy(b, |query|, a[n]);
    assert forall i :: 0 <= i < n ==> b[i] + |query| <= a[n];
    j :| 0 <= j < |b| && b[j] <= a[n] < b[j] + |query|;
    assert n < j ==> b[n] + |query| <= b[j];
  }

  lemma {:induction false} SameUpTo(lower: Lowering, text: Text, query: Text, a: seq<nat>, b: seq<nat>, n: nat)
    requires query != [] && n <= |a| && IsScan(lower, text, query, a) && IsScan(lower, text, query, b)
    ensures n <= |b| && forall i :: 0 <= i < n ==> a[i] == b[i]
  {
    if n > 0 {
      SameUpTo(lower, text, query, a, b, n - 1);
      var j := CoverIndex(lower, text, query, a, b, n - 1);
      var i := CoverIndex(lower, text, query, b, a, n - 1);
    }
  }

  // ---- snippets -------------------------------------------------------

  datatype Snippet = Snippet(text: Text, matchIndex: nat, matchOffset: nat)

  const ELLIPSIS: Text := Lit("...")

  function Max0(a: int): nat {
    if a < 0 then 0 else a
  }

  function Min(a: int, b: int): int {
    if a < b then a else b
  }

  /**
   Where the match lies within its snippet: at its offset minus the snippet's
   start, after the ellipsis if there is one.
   */
  function MatchPosition(offset: nat, context: nat): nat {
    offset - Max0(offset - context) + (if offset > context then 3 else 0)
  }

  /**
   The whole text of a snippet: the text without what lies further than the
   context from the match on either side, with dots for each side that was cut.
   */
  predicate Cut(text: Text, snippet: Text, offset: nat, queryLength: nat, context: nat, dots: Text)
    requires offset + queryLength <= |text|
  {
    var after := |text| - (offset + queryLength);
    var cutLeft := if offset > context then offset - context else 0;
    var cutRight := if after > context then after - context else 0;
    snippet == (if cutLeft > 0 then dots else []) + text[cutLeft..|text| - cutRight]
               + (if cutRight > 0 then dots else [])
  }

  predicate IsExcerpt(text: Text, s: Snippet, queryLength: nat, context: nat)
    requires s.matchOffset + queryLength <= |text|
  {
    Cut(text, s.text, s.matchOffset, queryLength, context, ELLIPSIS)
  }

  /** The text of one snippet. */
  method CutSnippet(text: Text, offset: nat, queryLength: nat, context: nat, index: nat) returns (snippet: Text)
    requires offset + queryLength <= |text|
    ensures IsExcerpt(text, Snippet(snippet, index, offset), queryLength, context)
  {
    var start := Max0(offset - context);
    var end := Min(|text|, offset + queryLength + context);
    snippet := text[start..end];
    if start > 0 {
      snippet := ELLIPSIS + snippet;
    }
    if end < |text| {
      snippet := snippet + ELLIPSIS;
    }
  }

  /** Main result: each snippet is exactly its excerpt, and shows its match at the known position. */
  method BuildSearchSnippets(text: Text, offsets: seq<nat>, queryLength: nat, limit: nat, context: nat)
      returns (snippets: seq<Snippet>)
    requires forall j :: 0 <= j < |offsets| ==> offsets[j] + queryLength <= |text|
    ensures |snippets| == Min(limit, |offsets|)
    ensures forall j :: 0 <= j < |snippets| ==>
              snippets[j].matchIndex == j && snippets[j].matchOffset == offsets[j]
              && IsExcerpt(text, snippets[j], queryLength, context)
              && ShowsMatch(text, snippets[j], queryLength, context)
  {
    snippets := [];
    for i := 0 to Min(limit, |offsets|)
      invariant |snippets| == i
      invariant forall j :: 0 <= j < i ==>
                  snippets[j].matchIndex == j && snippets[j].matchOffset == offsets[j]
                  && IsExcerpt(text, snippets[j], queryLength, context)
                  && ShowsMatch(text, snippets[j], queryLength, context)
    {
      var snippet := CutSnippet(text, offsets[i], queryLength, context, i);
      ExcerptShowsMatch(text, Snippet(snippet, i, offsets[i]), queryLength, context);
      snippets := snippets + [Snippet(snippet, i, offsets[i])];
    }
  }

  predicate ShowsMatch(text: Text, s: Snippet, queryLength: nat, context: nat) {
    var at := MatchPosition(s.matchOffset, context);
    && at + queryLength <= |s.text| <= queryLength + 2 * context + 6
    && s.matchOffset + queryLength <= |text|
    && s.text[at..at + queryLength] == text[s.matchOffset..s.matchOffset + queryLength]
  }

  lemma ExcerptShowsMatch(text: Text, s: Snippet, queryLength: nat, context: nat)
    requires s.matchOffset + queryLength <= |text| && IsExcerpt(text, s, queryLength, context)
    ensures ShowsMatch(text, s, queryLength, context)
  {
    CutShowsMatch(text, s, queryLength, context, ELLIPSIS);
  }

  lemma CutShowsMatch(text: Text, s: Snippet, queryLength: nat, context: nat, dots: Text)
    requires s.matchOffset + queryLength <= |text| && |dots| == 3
    requires Cut(text, s.text, s.matchOffset, queryLength, context, dots)
    ensures ShowsMatch(text, s, queryLength, context)
  {
    var after := |text| - (s.matchOffset + queryLength);
    var from := if s.matchOffset > context then s.matchOffset - context else 0;
    var to := |text| - (if after > context then after - context else 0);
    var front: Text := if from > 0 then dots else [];
    var back: Text := if to < |text| then dots else [];
    assert s.text == front + text[from..to] + back;
    FramedMatch(text, s, queryLength, context, from, to, front, back);
  }

  lemma FramedMatch(text: Text, s: Snippet, queryLength: nat, context: nat, from: nat, to: nat, front: Text, back: Text)
    requires from <= s.matchOffset && s.matchOffset + queryLength <= to <= |text|
    requires s.text == front + text[from..to] + back && |front| <= 3 && |back| <= 3
    requires s.matchOffset - from <= context && to - s.matchOffset - queryLength <= context
    requires MatchPosition(s.matchOffset, context) == |front| + (s.matchOffset - from)
    ensures ShowsMatch(text, s, queryLength, context)
  {
    WindowIn(text, from, to, front, back, s.matchOffset, queryLength);
  }

  /** Where a part of a text lies in a window of it with something before and after. */
  lemma WindowIn(text: Text, from: nat, to: nat, front: Text, back: Text, offset: nat, n: nat)
    requires from <= offset && offset + n <= to <= |text|
    ensures var whole, at := front + text[from..to] + back, |front| + (offset - from);
            |whole| == |front| + (to - from) + |back| && whole[at..at + n] == text[offset..offset + n]
  {
    Inside(front, text[from..to], back, offset - from, n);
    SliceOfSlice(text, from, to, offset, offset + n);
  }

  lemma Inside(front: Text, window: Text, back: Text, i: nat, n: nat)
    requires i + n <= |window|
    ensures (front + window + back)[|front| + i..|front| + i + n] == window[i..i + n]
  {
  }
}
