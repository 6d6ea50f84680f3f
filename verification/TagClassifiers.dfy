/**
 How the history search of services/terminal_sessions.py classifies the matches
 of a query: whole words, log markers, and tags such as "[query]" at the start
 of a line, told apart by what follows the closing bracket.
 */
module TagClassifiers {
  import opened Strings

  const TAB: CodePoint := 0x09
  const LF: CodePoint := 0x0A
  const SPACE: CodePoint := 0x20
  const DASH: CodePoint := 0x2D
  const COLON: CodePoint := 0x3A

  datatype Bracket = Square | Paren | Brace | Angle

  function Opening(b: Bracket): CodePoint {
    match b case Square => 0x5B case Paren => 0x28 case Brace => 0x7B case Angle => 0x3C
  }

  function Closing(b: Bracket): CodePoint {
    match b case Square => 0x5D case Paren => 0x29 case Brace => 0x7D case Angle => 0x3E
  }

  // ---- looking at single characters -----------------------------------

  /** `text[i:i+1] == c`. */
  predicate Is(text: Text, i: nat, c: CodePoint) {
    i < |text| && text[i] == c
  }

  /** `text[i:i+1]` is whitespace. */
  predicate SpaceAt(text: Text, i: nat) {
    i < |text| && IsSpace(text[i])
  }

  predicate EndOrSpace(text: Text, i: nat) {
    i >= |text| || IsSpace(text[i])
  }

  predicate SpaceDash(text: Text, i: nat) {
    Is(text, i, SPACE) && Is(text, i + 1, DASH)
  }

  predicate LineStart(text: Text, i: nat) {
    i == 0 || Is(text, i - 1, LF)
  }

  predicate IsWordChar(c: CodePoint) {
    0x61 <= c <= 0x7A || 0x41 <= c <= 0x5A || 0x30 <= c <= 0x39 || c == 0x5F
  }

  // ---- the classifiers ------------------------------------------------

  predicate WholeWord(text: Text, offset: nat, n: nat) {
    && offset + n <= |text|
    && (offset > 0 ==> !IsWordChar(text[offset - 1]))
    && (offset + n < |text| ==> !IsWordChar(text[offset + n]))
  }

  predicate LineStartWholeWord(text: Text, offset: nat, n: nat) {
    WholeWord(text, offset, n) && LineStart(text, offset)
  }

  predicate LogMarker(text: Text, offset: nat, n: nat) {
    LineStartWholeWord(text, offset, n) && (Is(text, offset + n, COLON) || SpaceDash(text, offset + n))
  }

  predicate DelimitedLogMarker(text: Text, offset: nat, n: nat) {
    LogMarker(text, offset, n) && EndOrSpace(text, offset + n + (if Is(text, offset + n, COLON) then 1 else 2))
  }

  /** A whole word between a bracket that starts a line and the matching closing one. */
  predicate Wrapped(text: Text, offset: nat, n: nat, b: Bracket) {
    && WholeWord(text, offset, n) && offset > 0
    && text[offset - 1] == Opening(b) && LineStart(text, offset - 1) && Is(text, offset + n, Closing(b))
  }

  predicate PunctuationWrap(text: Text, offset: nat, n: nat) {
    Wrapped(text, offset, n, Square) || Wrapped(text, offset, n, Paren)
    || Wrapped(text, offset, n, Brace) || Wrapped(text, offset, n, Angle)
  }

  predicate ColonMark(text: Text, i: nat) {
    Is(text, i, COLON) && EndOrSpace(text, i + 1)
  }

  predicate DashMark(text: Text, i: nat) {
    SpaceDash(text, i) && EndOrSpace(text, i + 2)
  }

  predicate ExactTag(text: Text, offset: nat, n: nat) {
    && PunctuationWrap(text, offset, n)
    && var after := offset + n + 1;
       if EndOrSpace(text, after) then true
       else if Is(text, after, COLON) then EndOrSpace(text, after + 1)
       else DashMark(text, after)
  }

  predicate Marker(text: Text, offset: nat, n: nat) {
    && ExactTag(text, offset, n)
    && var after := offset + n + 1;
       if Is(text, after, COLON) then EndOrSpace(text, after + 1) else DashMark(text, after)
  }

  predicate ColonMarker(text: Text, offset: nat, n: nat) {
    Marker(text, offset, n) && ColonMark(text, offset + n + 1)
  }

  predicate DashMarker(text: Text, offset: nat, n: nat) {
    Marker(text, offset, n) && DashMark(text, offset + n + 1)
  }

  predicate Plain(text: Text, offset: nat, n: nat) {
    ExactTag(text, offset, n) && !Marker(text, offset, n)
  }

  /** Something other than whitespace follows on the same line. */
  predicate HasPayload(text: Text, from: nat) {
    exists i :: from <= i < |text| && !IsSpace(text[i]) && forall k :: from <= k < i ==> text[k] != LF
  }

  /** The cursor loop that the classifiers of plain tags share. */
  method ScanForPayload(text: Text, separator: nat) returns (found: bool)
    ensures found <==> HasPayload(text, separator)
  {
    var cursor := separator;
    while cursor < |text| && text[cursor] != LF
      invariant separator <= cursor && (cursor > |text| ==> cursor == separator)
      invariant forall k :: separator <= k < cursor && k < |text| ==> IsSpace(text[k]) && text[k] != LF
      decreases |text| - cursor
    {
      if !IsSpace(text[cursor]) {
        return true;
      }
      cursor := cursor + 1;
    }
    assert cursor < |text| ==> IsSpace(LF) && text[cursor] == LF;
    found := false;
  }

  predicate SingleSpace(text: Text, offset: nat, n: nat) {
    var separator := offset + n + 1;
    Plain(text, offset, n) && Is(text, separator, SPACE) && separator + 1 < |text| && !IsSpace(text[separator + 1])
  }

  predicate NonSingleSpace(text: Text, offset: nat, n: nat) {
    Plain(text, offset, n) && !SingleSpace(text, offset, n)
  }

  predicate Payloadless(text: Text, offset: nat, n: nat) {
    Plain(text, offset, n) && !HasPayload(text, offset + n + 1)
  }

  predicate TabPrefixed(text: Text, offset: nat, n: nat) {
    Plain(text, offset, n) && !Payloadless(text, offset, n)
    && Is(text, offset + n + 1, TAB) && HasPayload(text, offset + n + 1)
  }

  predicate MultiSpace(text: Text, offset: nat, n: nat) {
    Plain(text, offset, n) && !Payloadless(text, offset, n) && !TabPrefixed(text, offset, n)
    && Is(text, offset + n + 1, SPACE) && Is(text, offset + n + 2, SPACE) && HasPayload(text, offset + n + 1)
  }

  predicate SpaceThenOther(text: Text, offset: nat, n: nat) {
    Plain(text, offset, n) && !Payloadless(text, offset, n) && !TabPrefixed(text, offset, n)
    && !MultiSpace(text, offset, n)
    && Is(text, offset + n + 1, SPACE) && SpaceAt(text, offset + n + 2) && !Is(text, offset + n + 2, SPACE)
    && HasPayload(text, offset + n + 1)
  }

  predicate OtherLeading(text: Text, offset: nat, n: nat) {
    Plain(text, offset, n) && !Payloadless(text, offset, n) && !TabPrefixed(text, offset, n)
    && !MultiSpace(text, offset, n) && !SpaceThenOther(text, offset, n)
    && SpaceAt(text, offset + n + 1) && !Is(text, offset + n + 1, SPACE) && !Is(text, offset + n + 1, TAB)
    && HasPayload(text, offset + n + 1)
  }

  predicate OtherLeadingMixed(text: Text, offset: nat, n: nat) {
    OtherLeading(text, offset, n) && SpaceAt(text, offset + n + 2)
  }

  predicate BracketTag(text: Text, offset: nat, n: nat, b: Bracket) {
    ExactTag(text, offset, n) && offset > 0 && Is(text, offset - 1, Opening(b)) && Is(text, offset + n, Closing(b))
  }

  predicate BracketMarker(text: Text, offset: nat, n: nat, b: Bracket) {
    Marker(text, offset, n) && BracketTag(text, offset, n, b)
  }

  predicate BracketPlain(text: Text, offset: nat, n: nat, b: Bracket) {
    BracketTag(text, offset, n, b) && !Marker(text, offset, n)
  }

  // ---- the partition --------------------------------------------------

  function Bit(b: bool): nat {
    if b then 1 else 0
  }

  /** Markers and plain tags split the exact tags, and a marker is of exactly one of its two kinds. */
  lemma MarkerSplit(text: Text, offset: nat, n: nat)
    ensures Bit(ColonMarker(text, offset, n)) + Bit(DashMarker(text, offset, n)) == Bit(Marker(text, offset, n))
    ensures Bit(Marker(text, offset, n)) + Bit(Plain(text, offset, n)) == Bit(ExactTag(text, offset, n))
  {
  }

  /** The six classes split the plain tags; all but the first split those without a single space. */
  lemma PlainSplit(text: Text, offset: nat, n: nat)
    ensures var others := Bit(Payloadless(text, offset, n)) + Bit(TabPrefixed(text, offset, n))
                          + Bit(MultiSpace(text, offset, n)) + Bit(SpaceThenOther(text, offset, n))
                          + Bit(OtherLeading(text, offset, n));
            && Bit(SingleSpace(text, offset, n)) + others == Bit(Plain(text, offset, n))
            && others == Bit(NonSingleSpace(text, offset, n))
  {
  }

  /** Main result: every exact tag is a colon marker, a dash marker, or of exactly one of the six plain classes. */
  lemma TagPartition(text: Text, offset: nat, n: nat)
    ensures Bit(ExactTag(text, offset, n)) ==
              Bit(ColonMarker(text, offset, n)) + Bit(DashMarker(text, offset, n))
              + Bit(SingleSpace(text, offset, n)) + Bit(Payloadless(text, offset, n))
              + Bit(TabPrefixed(text, offset, n)) + Bit(MultiSpace(text, offset, n))
              + Bit(SpaceThenOther(text, offset, n)) + Bit(OtherLeading(text, offset, n))
  {
  }

  /** Main result: every exact tag has exactly one kind of bracket, as a marker or as a plain tag. */
  lemma BracketPartition(text: Text, offset: nat, n: nat)
    ensures Bit(ExactTag(text, offset, n)) ==
              Bit(BracketTag(text, offset, n, Square)) + Bit(BracketTag(text, offset, n, Paren))
              + Bit(BracketTag(text, offset, n, Brace)) + Bit(BracketTag(text, offset, n, Angle))
    ensures forall b :: Bit(BracketTag(text, offset, n, b)) ==
              Bit(BracketMarker(text, offset, n, b)) + Bit(BracketPlain(text, offset, n, b))
  {
  }

  // ---- the classifiers as a table -------------------------------------

  /** What follows the closing bracket of a tag at the start of a line decides everything about it. */
  datatype TagClass =
    | NoTag | ColonMarked | DashMarked | OneSpace | NoPayload | AfterTab | AfterSpaces | AfterSpaceAndOther | AfterOther

  /** The rest ends here, or goes on with whitespace. */
  predicate Ends(rest: Text, i: nat) {
    |rest| <= i || IsSpace(rest[i])
  }

  /** Something other than whitespace stands on the rest's first line. */
  predicate Pays(rest: Text) {
    rest != [] && rest[0] != LF && (!IsSpace(rest[0]) || Pays(rest[1..]))
  }

  function ClassOf(rest: Text): TagClass {
    if rest == [] then NoPayload
    else if rest[0] == COLON then if Ends(rest, 1) then ColonMarked else NoTag
    else if !IsSpace(rest[0]) then NoTag
    else if rest[0] == SPACE && |rest| > 1 && rest[1] == DASH && Ends(rest, 2) then DashMarked
    else if rest[0] == SPACE && |rest| > 1 && !IsSpace(rest[1]) then OneSpace
    else if !Pays(rest) then NoPayload
    else if rest[0] == TAB then AfterTab
    else if rest[0] != SPACE then AfterOther
    else if |rest| > 1 && rest[1] == SPACE then AfterSpaces else AfterSpaceAndOther
  }

  /** A text taken apart around a bracketed word. */
  function Tagged(pre: Text, b: Bracket, word: Text, rest: Text): Text {
    pre + [Opening(b)] + word + [Closing(b)] + rest
  }

  lemma TaggedParts(pre: Text, b: Bracket, word: Text, rest: Text)
    ensures var t, offset := Tagged(pre, b, word, rest), |pre| + 1;
            && |t| == offset + |word| + 1 + |rest|
            && t[offset - 1] == Opening(b) && t[offset + |word|] == Closing(b)
            && (pre != [] ==> t[offset - 2] == pre[|pre| - 1])
            && forall i :: 0 <= i < |rest| ==> t[offset + |word| + 1 + i] == rest[i]
  {
  }

  lemma {:induction false} PaysIs(t: Text, from: nat)
    requires from <= |t|
    ensures Pays(t[from..]) <==> HasPayload(t, from)
    decreases |t| - from
  {
    if from < |t| && t[from] != LF {
      PaysIs(t, from + 1);
      assert t[from..][1..] == t[from + 1..];
      PayloadLater(t, from);
    }
  }

  lemma PayloadLater(t: Text, from: nat)
    requires from < |t| && t[from] != LF
    ensures HasPayload(t, from) <==> !IsSpace(t[from]) || HasPayload(t, from + 1)
  {
    if HasPayload(t, from) && IsSpace(t[from]) {
      var i :| from <= i < |t| && !IsSpace(t[i]) && forall k :: from <= k < i ==> t[k] != LF;
      assert from + 1 <= i;
    }
    if HasPayload(t, from + 1) {
      var i :| from + 1 <= i < |t| && !IsSpace(t[i]) && forall k :: from + 1 <= k < i ==> t[k] != LF;
      assert forall k :: from <= k < i ==> t[k] != LF;
    }
  }

  lemma PaysAfter(pre: Text, b: Bracket, word: Text, rest: Text)
    ensures HasPayload(Tagged(pre, b, word, rest), |pre| + 1 + |word| + 1) <==> Pays(rest)
  {
    var t, from := Tagged(pre, b, word, rest), |pre| + 1 + |word| + 1;
    TaggedParts(pre, b, word, rest);
    assert t[from..] == rest;
    PaysIs(t, from);
  }

  predicate EndsLine(pre: Text) {
    pre == [] || pre[|pre| - 1] == LF
  }

  /**
   Main result: a bracketed word is an exact tag if and only if its bracket
   starts a line and what follows is of some class, and every classifier finds
   exactly the tags of its class.
   */
  lemma ClassifiersAre(pre: Text, b: Bracket, word: Text, rest: Text)
    ensures var t, o, n := Tagged(pre, b, word, rest), |pre| + 1, |word|;
            var kind := if EndsLine(pre) then ClassOf(rest) else NoTag;
            && (ExactTag(t, o, n) <==> kind != NoTag)
            && (ColonMarker(t, o, n) <==> kind == ColonMarked) && (DashMarker(t, o, n) <==> kind == DashMarked)
            && (SingleSpace(t, o, n) <==> kind == OneSpace) && (Payloadless(t, o, n) <==> kind == NoPayload)
            && (TabPrefixed(t, o, n) <==> kind == AfterTab) && (MultiSpace(t, o, n) <==> kind == AfterSpaces)
            && (SpaceThenOther(t, o, n) <==> kind == AfterSpaceAndOther)
            && (OtherLeading(t, o, n) <==> kind == AfterOther)
            && (OtherLeadingMixed(t, o, n) <==> kind == AfterOther && |rest| > 1 && IsSpace(rest[1]))
            && (PunctuationWrap(t, o, n) <==> EndsLine(pre))
            && forall c :: BracketTag(t, o, n, c) <==> kind != NoTag && c == b
  {
    TaggedParts(pre, b, word, rest);
    PaysAfter(pre, b, word, rest);
  }

  /** And nothing else is an exact tag. */
  lemma TagsAreBracketed(text: Text, offset: nat, n: nat) returns (pre: Text, b: Bracket, word: Text, rest: Text)
    requires ExactTag(text, offset, n)
    ensures text == Tagged(pre, b, word, rest) && |pre| + 1 == offset && |word| == n && EndsLine(pre)
  {
    pre, word, rest := text[..offset - 1], text[offset..offset + n], text[offset + n + 1..];
    b := if Wrapped(text, offset, n, Square) then Square else if Wrapped(text, offset, n, Paren) then Paren
         else if Wrapped(text, offset, n, Brace) then Brace else Angle;
    assert text == pre + [text[offset - 1]] + word + [text[offset + n]] + rest;
  }

  /** The classifiers of words without brackets, by what stands before and after the word. */
  lemma WordsAre(pre: Text, word: Text, rest: Text)
    ensures var t, o, n := pre + word + rest, |pre|, |word|;
            var free := (pre == [] || !IsWordChar(pre[|pre| - 1])) && (rest == [] || !IsWordChar(rest[0]));
            var colon, dash := Is(rest, 0, COLON), |rest| > 1 && rest[0] == SPACE && rest[1] == DASH;
            && (WholeWord(t, o, n) <==> free)
            && (LineStartWholeWord(t, o, n) <==> free && EndsLine(pre))
            && (LogMarker(t, o, n) <==> free && EndsLine(pre) && (colon || dash))
            && (DelimitedLogMarker(t, o, n) <==>
                  free && EndsLine(pre) && ((colon && Ends(rest, 1)) || (dash && Ends(rest, 2))))
  {
    var t := pre + word + rest;
    assert forall i :: 0 <= i < |rest| ==> t[|pre| + |word| + i] == rest[i];
  }

  // ---- counting -------------------------------------------------------

  type Classifier = (Text, nat, nat) -> bool

  /** The list comprehension of the `_count_…_hits` functions. */
  function Hits(c: Classifier, text: Text, offsets: seq<nat>, n: nat): seq<nat> {
    if offsets == [] then []
    else if c(text, offsets[0], n) then [offsets[0]] + Hits(c, text, offsets[1..], n)
    else Hits(c, text, offsets[1..], n)
  }

  function Count(c: Classifier, text: Text, offsets: seq<nat>, n: nat): nat {
    |Hits(c, text, offsets, n)|
  }

  const NO_OFFSET := 0x1000_0000_0000_0000

  function First(c: Classifier, text: Text, offsets: seq<nat>, n: nat): nat {
    var hits := Hits(c, text, offsets, n);
    if hits == [] then NO_OFFSET else hits[0]
  }

  /** Main result: whatever the text, the class counts add up to the number of exact tags. */
  lemma {:induction false} CountsAddUp(text: Text, offsets: seq<nat>, n: nat)
    ensures Count(ExactTag, text, offsets, n) ==
              Count(ColonMarker, text, offsets, n) + Count(DashMarker, text, offsets, n)
              + Count(SingleSpace, text, offsets, n) + Count(NonSingleSpace, text, offsets, n)
    ensures Count(NonSingleSpace, text, offsets, n) ==
              Count(Payloadless, text, offsets, n) + Count(TabPrefixed, text, offsets, n)
              + Count(MultiSpace, text, offsets, n) + Count(SpaceThenOther, text, offsets, n)
              + Count(OtherLeading, text, offsets, n)
  {
    if offsets != [] {
      TagPartition(text, offsets[0], n);
      PlainSplit(text, offsets[0], n);
      CountsAddUp(text, offsets[1..], n);
    }
  }

  function OfBracket(c: (Text, nat, nat, Bracket) -> bool, b: Bracket): Classifier {
    (text: Text, offset: nat, n: nat) => c(text, offset, n, b)
  }

  lemma {:induction false} BracketCountsAddUp(text: Text, offsets: seq<nat>, n: nat)
    ensures Count(ExactTag, text, offsets, n) ==
              Count(OfBracket(BracketTag, Square), text, offsets, n)
              + Count(OfBracket(BracketTag, Paren), text, offsets, n)
              + Count(OfBracket(BracketTag, Brace), text, offsets, n)
              + Count(OfBracket(BracketTag, Angle), text, offsets, n)
    ensures forall b :: Count(OfBracket(BracketTag, b), text, offsets, n) ==
              Count(OfBracket(BracketMarker, b), text, offsets, n) + Count(OfBracket(BracketPlain, b), text, offsets, n)
  {
    if offsets != [] {
      BracketPartition(text, offsets[0], n);
      BracketCountsAddUp(text, offsets[1..], n);
    }
  }

  lemma {:induction false} NarrowerCountsLess(c: Classifier, d: Classifier, text: Text, offsets: seq<nat>, n: nat)
    requires forall o: nat | c(text, o, n) :: d(text, o, n)
    ensures Count(c, text, offsets, n) <= Count(d, text, offsets, n)
  {
    if offsets != [] {
      NarrowerCountsLess(c, d, text, offsets[1..], n);
    }
  }

  /** Main result: the differences of `_build_search_candidate` are never negative, so clamping them changes nothing. */
  lemma DifferencesNonNegative(text: Text, offsets: seq<nat>, n: nat)
    ensures Count(PunctuationWrap, text, offsets, n) - Count(ExactTag, text, offsets, n) >= 0
    ensures Count(WholeWord, text, offsets, n) - Count(LineStartWholeWord, text, offsets, n) >= 0
    ensures Count(LineStartWholeWord, text, offsets, n) >= Count(LogMarker, text, offsets, n)
            >= Count(DelimitedLogMarker, text, offsets, n)
    ensures Count(OtherLeading, text, offsets, n) >= Count(OtherLeadingMixed, text, offsets, n)
  {
    NarrowerCountsLess(ExactTag, PunctuationWrap, text, offsets, n);
    NarrowerCountsLess(LineStartWholeWord, WholeWord, text, offsets, n);
    NarrowerCountsLess(LogMarker, LineStartWholeWord, text, offsets, n);
    NarrowerCountsLess(DelimitedLogMarker, LogMarker, text, offsets, n);
    NarrowerCountsLess(OtherLeadingMixed, OtherLeading, text, offsets, n);
  }

  /** The first hit is the least one, because the matcher lists offsets in increasing order. */
  lemma {:induction false} FirstIsLeast(c: Classifier, text: Text, offsets: seq<nat>, n: nat, o: nat)
    requires forall i, j :: 0 <= i < j < |offsets| ==> offsets[i] < offsets[j]
    requires o in offsets && c(text, o, n)
    ensures First(c, text, offsets, n) <= o && c(text, First(c, text, offsets, n), n) && Count(c, text, offsets, n) > 0
  {
    if !c(text, offsets[0], n) {
      FirstIsLeast(c, text, offsets[1..], n, o);
    }
  }
}
