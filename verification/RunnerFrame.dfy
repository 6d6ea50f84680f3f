/**
 The output frame between the agent runner and the backend that starts it: the
 printer is `write_output` of container/agent-runner/src/runner.py, the parser
 `_extract_runner_output` of services/execution_backends.py.
 */
module RunnerFrame {
  import opened Wrappers
  import opened Strings

  const START: Text := Lit("---PORTEX_OUTPUT_START---")
  const END: Text := Lit("---PORTEX_OUTPUT_END---")
  const NEWLINE: Text := [10]

  // ---- printer --------------------------------------------------------

  class OutputStream {
    var text: Text

    constructor ()
      ensures text == []
    {
      text := [];
    }

    method Write(t: Text)
      modifies this
      ensures text == old(text) + t
    {
      text := text + t;
    }
  }

  function Frame(payload: Text): Text {
    START + NEWLINE + payload + NEWLINE + END + NEWLINE
  }

  method WriteOutput(payload: Text, stream: OutputStream, framed: bool)
    modifies stream
    ensures stream.text == old(stream.text) + (if framed then Frame(payload) else payload + NEWLINE)
  {
    if framed {
      stream.Write(START + NEWLINE);
    }
    stream.Write(payload);
    stream.Write(NEWLINE);
    if framed {
      stream.Write(END + NEWLINE);
      Regroup(old(stream.text), START, NEWLINE, payload, END);
    }
  }

  lemma Regroup(t: Text, a: Text, n: Text, p: Text, b: Text)
    ensures t + (a + n) + p + n + (b + n) == t + (a + n + p + n + b + n)
  {
  }

  // ---- parser ---------------------------------------------------------

  function Extract(stdout: Text): Option<Text> {
    ExtractBetween(stdout, START, END)
  }

  function ExtractBetween(stdout: Text, opening: Text, closing: Text): Option<Text> {
    if Contains(stdout, opening) && Contains(stdout, closing) then
      var start := RFind(stdout, opening).value;
      var end := Find(stdout, closing, start);
      if end.None? then None else Some(Strip(Slice(stdout, start + |opening|, end.value)))
    else
      var stripped := Strip(stdout);
      if stripped == [] then None else Some(stripped)
  }

  // ---- round trip -----------------------------------------------------

  predicate NoNewline(marker: Text) {
    forall k :: 0 <= k < |marker| ==> marker[k] != 10
  }

  /** Every marker is free of newlines, and the end marker does not begin inside the start marker. */
  lemma MarkerFacts()
    ensures |START| == 25 && |END| == 23
    ensures NoNewline(START) && NoNewline(END)
    ensures START[17] != END[17] && START[3] != END[2] && START[3] != END[1]
  {
  }

  lemma OccurrenceChar(t: Text, marker: Text, i: nat, k: nat)
    requires k < |marker|
    ensures OccursAt(t, marker, i) ==> i + k < |t| && t[i + k] == marker[k]
  {
  }

  /** A window that covers a newline is no marker. */
  lemma NoMarkerAcross(t: Text, marker: Text, i: nat, newline: nat)
    requires NoNewline(marker)
    requires i <= newline < i + |marker| && newline < |t| && t[newline] == 10
    ensures !OccursAt(t, marker, i)
  {
  }

  /** Where an occurrence in a payload, or in what follows, lies in the whole output. */
  function Whole(pre: Text, payload: Text, post: Text): Text {
    pre + Frame(payload) + post
  }

  lemma WholeParts(pre: Text, payload: Text, post: Text)
    ensures var t, s, e := Whole(pre, payload, post), |pre| + 26, |pre| + 27 + |payload|;
            && |t| == e + 24 + |post|
            && OccursAt(t, START, |pre|) && OccursAt(t, END, e)
            && t[s - 1] == 10 && t[s..s + |payload|] == payload && t[e - 1] == 10 && t[e + 23] == 10
            && t[e + 24..] == post
            && t[s - 1..e] == NEWLINE + payload + NEWLINE
  {
    MarkerFacts();
    FramedParts(pre, START, NEWLINE, payload, END, post);
  }

  lemma FramedParts(pre: Text, a: Text, n: Text, p: Text, b: Text, post: Text)
    ensures var t := pre + (a + n + p + n + b + n) + post;
            var i := |pre| + |a|;
            var j := i + |n|;
            var k := j + |p|;
            var l := k + |n|;
            var m := l + |b|;
            && |t| == m + |n| + |post|
            && t[|pre|..i] == a && t[i..j] == n && t[j..k] == p && t[k..l] == n && t[l..m] == b && t[m..m + |n|] == n
            && t[m + |n|..] == post && t[i..l] == n + p + n
  {
  }

  lemma OccursInSlice(t: Text, marker: Text, from: nat, to: nat, i: nat)
    requires from <= i && i + |marker| <= to <= |t|
    ensures OccursAt(t, marker, i) <==> OccursAt(t[from..to], marker, i - from)
  {
    SliceOfSlice(t, from, to, i, i + |marker|);
  }

  lemma OccursInTail(t: Text, marker: Text, from: nat, i: nat)
    requires from <= |t| && from <= i
    ensures OccursAt(t, marker, i) ==> Contains(t[from..], marker)
  {
    assert i + |marker| <= |t| ==> t[from..][i - from..i - from + |marker|] == t[i..i + |marker|];
    assert OccursAt(t, marker, i) ==> OccursAt(t[from..], marker, i - from);
  }

  /** From a position behind the opening marker on, a marker occurs only where the payload has it. */
  lemma InPayloadOnly(t: Text, payload: Text, marker: Text, from: nat, i: nat)
    requires NoNewline(marker) && |marker| > 0 && 0 < from <= i <= from + |payload| < |t|
    requires t[from..from + |payload|] == payload && t[from + |payload|] == 10
    ensures OccursAt(t, marker, i) <==> OccursAt(payload, marker, i - from)
  {
    if i + |marker| <= from + |payload| {
      OccursInSlice(t, marker, from, from + |payload|, i);
    } else {
      NoMarkerAcross(t, marker, i, from + |payload|);
    }
  }

  /** After the frame's own start marker, start markers occur only where the payload has them. */
  lemma LaterStarts(pre: Text, payload: Text, post: Text, i: nat)
    requires !Contains(post, START) && i > |pre|
    ensures OccursAt(Whole(pre, payload, post), START, i) <==>
              i >= |pre| + 26 && OccursAt(payload, START, i - |pre| - 26)
  {
    var t, s, e := Whole(pre, payload, post), |pre| + 26, |pre| + 27 + |payload|;
    MarkerFacts();
    WholeParts(pre, payload, post);
    if i < s {
      NoMarkerAcross(t, START, i, s - 1);
    } else if i < e {
      InPayloadOnly(t, payload, START, s, i);
    } else if i < e + 24 {
      if i + 25 <= |t| {
        NoMarkerAcross(t, START, i, e + 23);
      }
    } else {
      OccursInTail(t, START, e + 24, i);
    }
  }

  /** From the frame's start marker on, end markers before the frame's own one occur only where the payload has them. */
  lemma EarlierEnds(pre: Text, payload: Text, post: Text, i: nat)
    requires |pre| <= i < |pre| + 27 + |payload|
    ensures OccursAt(Whole(pre, payload, post), END, i) <==>
              i >= |pre| + 26 && OccursAt(payload, END, i - |pre| - 26)
  {
    var t, s := Whole(pre, payload, post), |pre| + 26;
    MarkerFacts();
    WholeParts(pre, payload, post);
    if i < |pre| + 3 {
      NoEndInStart(t, |pre|, i - |pre|);
    } else if i < s {
      NoMarkerAcross(t, END, i, s - 1);
    } else {
      InPayloadOnly(t, payload, END, s, i);
    }
  }

  lemma NoEndInStart(t: Text, start: nat, k: nat)
    requires OccursAt(t, START, start) && k < 3
    ensures !OccursAt(t, END, start + k)
  {
    var j := if k == 0 then 17 else 3 - k;
    MarkerFacts();
    OccurrenceChar(t, START, start, k + j);
    OccurrenceChar(t, END, start + k, j);
  }

  /** The last start marker is the frame's own one exactly when the payload has none; else it is in the payload. */
  ghost predicate StartsWhere(t: Text, payload: Text, marker: Text, from: nat) {
    var r := RFind(t, marker);
    && r.Some? && (r.value == from || from + 26 <= r.value <= from + 1 + |payload|)
    && (r.value == from <==> !Contains(payload, marker))
  }

  lemma LastStart(pre: Text, payload: Text, post: Text)
    requires !Contains(post, START)
    ensures StartsWhere(Whole(pre, payload, post), payload, START, |pre|)
  {
    var t := Whole(pre, payload, post);
    MarkerFacts();
    WholeParts(pre, payload, post);
    assert Contains(t, START);
    var start := RFind(t, START).value;
    if start > |pre| {
      LaterStarts(pre, payload, post, start);
    }
    if i: nat :| i <= |payload| && OccursAt(payload, START, i) {
      LaterStarts(pre, payload, post, |pre| + 26 + i);
    }
  }

  /** The first end marker after it is the frame's own one exactly when the payload has none. */
  ghost predicate EndsWhere(t: Text, payload: Text, marker: Text, from: nat) {
    var r, e := Find(t, marker, from), from + 27 + |payload|;
    && r.Some? && (r.value == e || from + 26 <= r.value <= e - |marker| - 1)
    && (r.value == e <==> !Contains(payload, marker))
  }

  lemma FirstEnd(pre: Text, payload: Text, post: Text)
    ensures EndsWhere(Whole(pre, payload, post), payload, END, |pre|)
  {
    OwnEnd(pre, payload, post);
    AllEarlierEnds(pre, payload, post);
    FirstOf(Whole(pre, payload, post), payload, END, |pre|);
  }

  /** Up to the end of the frame, a marker occurs only where the payload has it. */
  ghost predicate OnlyInPayload(t: Text, payload: Text, marker: Text, from: nat) {
    forall i | from <= i < from + 27 + |payload| ::
      OccursAt(t, marker, i) <==> i >= from + 26 && OccursAt(payload, marker, i - from - 26)
  }

  lemma AllEarlierEnds(pre: Text, payload: Text, post: Text)
    ensures OnlyInPayload(Whole(pre, payload, post), payload, END, |pre|)
  {
    forall i | |pre| <= i < |pre| + 27 + |payload|
      ensures OccursAt(Whole(pre, payload, post), END, i) <==>
                i >= |pre| + 26 && OccursAt(payload, END, i - |pre| - 26)
    {
      EarlierEnds(pre, payload, post, i);
    }
  }

  lemma OwnEnd(pre: Text, payload: Text, post: Text)
    ensures OccursAt(Whole(pre, payload, post), END, |pre| + 27 + |payload|)
  {
    MarkerFacts();
    WholeParts(pre, payload, post);
  }

  lemma FirstOf(t: Text, payload: Text, marker: Text, from: nat)
    requires OccursAt(t, marker, from + 27 + |payload|) && OnlyInPayload(t, payload, marker, from)
    ensures EndsWhere(t, payload, marker, from)
  {
    var end := Find(t, marker, from).value;
    if end < from + 27 + |payload| {
      assert OccursAt(payload, marker, end - from - 26);
    }
    if i: nat :| i <= |payload| && OccursAt(payload, marker, i) {
      assert OccursAt(t, marker, from + 26 + i);
    }
  }

  /** What the parser cuts out is shorter than the payload unless both searches meet the frame's own markers. */
  lemma ExtractWhole(pre: Text, payload: Text, post: Text)
    requires !Contains(post, START)
    ensures !Contains(payload, START) && !Contains(payload, END) ==>
              Extract(Whole(pre, payload, post)) == Some(Strip(NEWLINE + payload + NEWLINE))
    ensures Contains(payload, START) || Contains(payload, END) ==>
              var r := Extract(Whole(pre, payload, post)); r.None? || |r.value| < |payload|
  {
    WholeBody(pre, payload, post);
    OwnEnd(pre, payload, post);
    LastStart(pre, payload, post);
    FirstEnd(pre, payload, post);
    CutOut(Whole(pre, payload, post), payload, |pre|, START, END);
  }

  lemma WholeBody(pre: Text, payload: Text, post: Text)
    ensures |START| == 25 && |END| == 23
    ensures |pre| + 27 + |payload| <= |Whole(pre, payload, post)|
    ensures Whole(pre, payload, post)[|pre| + 25..|pre| + 27 + |payload|] == NEWLINE + payload + NEWLINE
  {
    MarkerFacts();
    WholeParts(pre, payload, post);
  }

  lemma CutOut(t: Text, payload: Text, p: nat, opening: Text, closing: Text)
    requires |opening| == 25
    requires p + 27 + |payload| <= |t| && t[p + 25..p + 27 + |payload|] == NEWLINE + payload + NEWLINE
    requires StartsWhere(t, payload, opening, p) && EndsWhere(t, payload, closing, p) && |closing| == 23
    requires OccursAt(t, closing, p + 27 + |payload|)
    ensures !Contains(payload, opening) && !Contains(payload, closing) ==>
              ExtractBetween(t, opening, closing) == Some(Strip(NEWLINE + payload + NEWLINE))
    ensures Contains(payload, opening) || Contains(payload, closing) ==>
              var r := ExtractBetween(t, opening, closing); r.None? || |r.value| < |payload|
  {
    BothFound(t, opening, closing, p + 27 + |payload|);
    if RFind(t, opening).value == p {
      StripShrinks(Slice(t, p + 25, Find(t, closing, p).value));
    } else {
      LaterCut(t, payload, p, opening, closing);
    }
  }

  lemma BothFound(t: Text, opening: Text, closing: Text, e: nat)
    requires RFind(t, opening).Some? && OccursAt(t, closing, e)
    ensures Contains(t, opening) && Contains(t, closing)
  {
    assert OccursAt(t, opening, RFind(t, opening).value);
  }

  /** From a start marker in the payload to the frame's end marker at the latest there is less than the payload. */
  lemma LaterCut(t: Text, payload: Text, p: nat, opening: Text, closing: Text)
    requires |opening| == 25 && RFind(t, opening).Some?
    requires p + 26 <= RFind(t, opening).value <= p + 1 + |payload| && OccursAt(t, closing, p + 27 + |payload|)
    ensures var r := Find(t, closing, RFind(t, opening).value);
            r.Some? ==> |Strip(Slice(t, RFind(t, opening).value + 25, r.value))| < |payload|
  {
    var start := RFind(t, opening).value;
    var end := Find(t, closing, start);
    if end.Some? {
      assert end.value <= p + 27 + |payload|;
      StripShrinks(Slice(t, start + 25, end.value));
    }
  }

  lemma StripShrinks(t: Text)
    ensures |Strip(t)| <= |t|
  {
    var a, b := StripParts(t);
  }

  /**
   Main result: whatever was printed before, and after it as long as no start
   marker follows, the parser gives back the payload if and only if the payload
   contains neither marker and has no outer whitespace.
   */
  lemma FrameRoundTrip(pre: Text, payload: Text, post: Text)
    requires !Contains(post, START)
    ensures Extract(pre + Frame(payload) + post) == Some(payload) <==>
              !Contains(payload, START) && !Contains(payload, END) && Trimmed(payload)
  {
    ExtractWhole(pre, payload, post);
    if Trimmed(payload) {
      StripIs(NEWLINE, payload, NEWLINE);
    } else {
      var a, b := StripParts(NEWLINE + payload + NEWLINE);
    }
  }

  /** Without a frame the whole output is taken, unless it happens to contain both markers. */
  lemma UnframedRoundTrip(payload: Text)
    ensures Extract(payload + NEWLINE) == Some(payload) <==>
              payload != [] && Trimmed(payload) && !(Contains(payload, START) && Contains(payload, END))
  {
    MarkerFacts();
    UnframedBetween(payload, START, END);
  }

  lemma UnframedBetween(payload: Text, opening: Text, closing: Text)
    requires NoNewline(opening) && NoNewline(closing) && |opening| > 1 && |closing| > 0
    ensures ExtractBetween(payload + NEWLINE, opening, closing) == Some(payload) <==>
              payload != [] && Trimmed(payload) && !(Contains(payload, opening) && Contains(payload, closing))
  {
    var t := payload + NEWLINE;
    SameMarkers(payload, opening);
    SameMarkers(payload, closing);
    if Contains(t, opening) && Contains(t, closing) {
      var start, end := RFind(t, opening).value, Find(t, closing, RFind(t, opening).value);
      if end.Some? {
        StripShrinks(Slice(t, start + |opening|, end.value));
      }
    } else {
      UnmarkedStrip(payload);
    }
  }

  lemma UnmarkedStrip(payload: Text)
    ensures Strip(payload + NEWLINE) == payload <==> Trimmed(payload)
  {
    if Trimmed(payload) {
      StripIs([], payload, NEWLINE);
      assert [] + payload + NEWLINE == payload + NEWLINE;
    } else {
      var a, b := StripParts(payload + NEWLINE);
    }
  }

  lemma SameMarkers(payload: Text, marker: Text)
    requires |marker| > 0 && NoNewline(marker)
    ensures Contains(payload + NEWLINE, marker) <==> Contains(payload, marker)
  {
    var t := payload + NEWLINE;
    if i: nat :| i <= |t| && OccursAt(t, marker, i) {
      if i + |marker| > |payload| {
        NoMarkerAcross(t, marker, i, |payload|);
      }
      assert t[i..i + |marker|] == payload[i..i + |marker|];
      assert OccursAt(payload, marker, i);
    }
    if i: nat :| i <= |payload| && OccursAt(payload, marker, i) {
      assert t[i..i + |marker|] == payload[i..i + |marker|];
      assert OccursAt(t, marker, i);
    }
  }
}
