/**
 The bounded output history of services/terminal_sessions.py: a deque of chunks
 whose UTF-8 size must not exceed `history_max_bytes`.
 */
module OutputHistory {
  import opened Strings

  // ---- text and its UTF-8 encoding ------------------------------------

  type Byte = b: int | 0 <= b < 0x100

  /** Section 3 of RFC 3629, with `errors="ignore"` leaving out the surrogates, which have no encoding. */
  function EncodePoint(c: CodePoint): (bytes: seq<Byte>)
    ensures |bytes| <= 4
    ensures bytes == [] <==> 0xD800 <= c < 0xE000
  {
    if c < 0x80 then [c]
    else if c < 0x800 then [0xC0 + c / 0x40, 0x80 + c % 0x40]
    else if 0xD800 <= c < 0xE000 then []
    else if c < 0x10000 then [0xE0 + c / 0x1000, 0x80 + c / 0x40 % 0x40, 0x80 + c % 0x40]
    else [0xF0 + c / 0x40000, 0x80 + c / 0x1000 % 0x40, 0x80 + c / 0x40 % 0x40, 0x80 + c % 0x40]
  }

  function Encode(text: Text): seq<Byte> {
    if text == [] then [] else EncodePoint(text[0]) + Encode(text[1..])
  }

  // ---- the encoding can be read back ----------------------------------

  /** How many bytes a code point takes, by its lead byte. */
  function Width(lead: Byte): nat {
    if lead < 0x80 then 1 else if lead < 0xE0 then 2 else if lead < 0xF0 then 3 else 4
  }

  /** The code point of that many bytes. */
  function Point(bytes: seq<Byte>): int
    requires bytes != [] && |bytes| >= Width(bytes[0])
  {
    var lead: int := bytes[0];
    match Width(bytes[0])
    case 1 => lead
    case 2 => (lead - 0xC0) * 0x40 + Tail(bytes, 1)
    case 3 => (lead - 0xE0) * 0x1000 + Tail(bytes, 1) * 0x40 + Tail(bytes, 2)
    case _ => (lead - 0xF0) * 0x40000 + Tail(bytes, 1) * 0x1000 + Tail(bytes, 2) * 0x40 + Tail(bytes, 3)
  }

  /** The six bits of a continuation byte. */
  function Tail(bytes: seq<Byte>, i: nat): int
    requires i < |bytes|
  {
    var b: int := bytes[i];
    b - 0x80
  }

  function Decode(bytes: seq<Byte>): seq<int> {
    if bytes == [] || |bytes| < Width(bytes[0]) then []
    else [Point(bytes)] + Decode(bytes[Width(bytes[0])..])
  }

  predicate Surrogate(c: CodePoint) {
    0xD800 <= c < 0xE000
  }

  /** The text without its surrogates. */
  function Encodable(text: Text): Text {
    if text == [] then []
    else if Surrogate(text[0]) then Encodable(text[1..])
    else [text[0]] + Encodable(text[1..])
  }

  lemma ThreeBytes(c: CodePoint)
    requires 0x800 <= c < 0x10000
    ensures var a, b, d := c / 0x1000, c / 0x40 % 0x40, c % 0x40;
            0 <= a < 0x10 && 0 <= b < 0x40 && 0 <= d < 0x40 && c == a * 0x1000 + b * 0x40 + d
  {
  }

  lemma FourBytes(c: CodePoint)
    requires 0x10000 <= c
    ensures var a, b, d, e := c / 0x40000, c / 0x1000 % 0x40, c / 0x40 % 0x40, c % 0x40;
            && 0 <= a < 5 && 0 <= b < 0x40 && 0 <= d < 0x40 && 0 <= e < 0x40
            && c == a * 0x40000 + b * 0x1000 + d * 0x40 + e
  {
    var sixes := c / 0x40;
    assert c == sixes * 0x40 + c % 0x40;
    assert sixes == c / 0x1000 * 0x40 + sixes % 0x40;
    assert c / 0x1000 == c / 0x40000 * 0x40 + c / 0x1000 % 0x40;
  }

  lemma PointReadsBack(c: CodePoint)
    requires !Surrogate(c)
    ensures var bytes := EncodePoint(c);
            && |bytes| == (if c < 0x80 then 1 else if c < 0x800 then 2 else if c < 0x10000 then 3 else 4)
            && |bytes| == Width(bytes[0]) && Point(bytes) == c
            && forall i :: 0 < i < |bytes| ==> 0x80 <= bytes[i] < 0xC0
  {
    if 0x800 <= c < 0x10000 {
      ThreeBytes(c);
    } else if 0x10000 <= c {
      FourBytes(c);
    }
  }

  lemma PointOfPrefix(bytes: seq<Byte>, rest: seq<Byte>)
    requires bytes != [] && |bytes| == Width(bytes[0])
    ensures Point(bytes + rest) == Point(bytes) && (bytes + rest)[|bytes|..] == rest
  {
  }

  /** Main result: read by lead bytes, the encoding gives back the text, but for the surrogates it ignores. */
  lemma {:induction false} EncodingReadsBack(text: Text)
    ensures Decode(Encode(text)) == Encodable(text)
  {
    if text != [] {
      EncodingReadsBack(text[1..]);
      if Surrogate(text[0]) {
        assert Encode(text) == Encode(text[1..]);
      } else {
        PointReadsBack(text[0]);
        PointOfPrefix(EncodePoint(text[0]), Encode(text[1..]));
      }
    }
  }

  function Size(text: Text): nat {
    |Encode(text)|
  }

  function Join(chunks: seq<Text>): Text {
    if chunks == [] then [] else chunks[0] + Join(chunks[1..])
  }

  function Total(chunks: seq<Text>): nat {
    if chunks == [] then 0 else Size(chunks[0]) + Total(chunks[1..])
  }

  lemma {:induction false} EncodeConcat(a: Text, b: Text)
    ensures Encode(a + b) == Encode(a) + Encode(b)
  {
    if a == [] {
      assert a + b == b;
    } else {
      assert (a + b)[1..] == a[1..] + b;
      EncodeConcat(a[1..], b);
    }
  }

  /** The byte count of a list of chunks is the encoded length of the joined text. */
  lemma {:induction false} TotalIsJoinedSize(chunks: seq<Text>)
    ensures Total(chunks) == |Encode(Join(chunks))|
  {
    if chunks != [] {
      EncodeConcat(chunks[0], Join(chunks[1..]));
      TotalIsJoinedSize(chunks[1..]);
    }
  }

  lemma {:induction false} TotalConcat(a: seq<Text>, b: seq<Text>)
    ensures Total(a + b) == Total(a) + Total(b)
  {
    if a == [] {
      assert a + b == b;
    } else {
      assert (a + b)[1..] == a[1..] + b;
      TotalConcat(a[1..], b);
    }
  }

  // ---- the history ----------------------------------------------------

  /** The three history fields of a managed session. */
  datatype History = History(chunks: seq<Text>, bytes: int, truncated: bool)

  /** The eviction loop: chunks leave on the left until the rest fits. */
  function Trim(max: int, h: History): History
    decreases |h.chunks|
  {
    if h.bytes > max && h.chunks != []
    then Trim(max, History(h.chunks[1..], h.bytes - Size(h.chunks[0]), true))
    else h
  }

  function Clamp(h: History): History {
    if h.bytes < 0 then h.(bytes := 0) else h
  }

  /** `_append_output_history`. */
  function Append(max: int, h: History, chunk: Text): History {
    if max <= 0 then h.(chunks := [], bytes := 0)
    else if Size(chunk) == 0 then h
    else Clamp(Trim(max, h.(chunks := h.chunks + [chunk], bytes := h.bytes + Size(chunk))))
  }

  /** All chunks of a session that carry at least one byte. */
  function Effective(log: seq<Text>): seq<Text> {
    if log == [] then []
    else
      var init, last := Effective(log[..|log| - 1]), log[|log| - 1];
      if Size(last) == 0 then init else init + [last]
  }

  /** The longest suffix of a chunk list whose size fits. */
  function Fitting(max: nat, chunks: seq<Text>): seq<Text> {
    if Total(chunks) <= max then chunks else Fitting(max, chunks[1..])
  }

  /** What the history must be after the log, when it started out marked as truncated or not. */
  function HistoryOf(max: int, log: seq<Text>, seeded: bool): History {
    if max <= 0 then History([], 0, seeded)
    else
      var kept := Fitting(max, Effective(log));
      History(kept, Total(kept), seeded || |kept| < |Effective(log)|)
  }

  /** It is a suffix, it fits, and every longer suffix does not. */
  lemma {:induction false} FittingIsLongest(max: nat, chunks: seq<Text>, n: nat)
    requires n <= |chunks|
    ensures |Fitting(max, chunks)| <= |chunks|
    ensures Fitting(max, chunks) == chunks[|chunks| - |Fitting(max, chunks)|..]
    ensures Total(Fitting(max, chunks)) <= max
    ensures Total(chunks[|chunks| - n..]) <= max ==> n <= |Fitting(max, chunks)|
  {
    if Total(chunks) > max {
      if n < |chunks| {
        FittingIsLongest(max, chunks[1..], n);
        assert chunks[1..][|chunks| - 1 - n..] == chunks[|chunks| - n..];
      } else {
        FittingIsLongest(max, chunks[1..], 0);
        assert chunks[|chunks| - n..] == chunks;
      }
    }
  }

  /** The loop reaches the longest fitting suffix, and marks a truncation exactly when it drops something. */
  lemma {:induction false} TrimReachesFitting(max: nat, h: History)
    requires h.bytes == Total(h.chunks)
    ensures Trim(max, h) == History(Fitting(max, h.chunks), Total(Fitting(max, h.chunks)),
                                    h.truncated || |Fitting(max, h.chunks)| < |h.chunks|)
    decreases |h.chunks|
  {
    if h.bytes > max {
      TrimReachesFitting(max, History(h.chunks[1..], h.bytes - Size(h.chunks[0]), true));
      FittingIsLongest(max, h.chunks[1..], 0);
    } else {
      assert Fitting(max, h.chunks) == h.chunks;
    }
  }

  /** Trimming early loses nothing: what does not fit now does not fit later either. */
  lemma {:induction false} FittingIncremental(max: nat, chunks: seq<Text>, chunk: Text)
    ensures Fitting(max, Fitting(max, chunks) + [chunk]) == Fitting(max, chunks + [chunk])
  {
    if Total(chunks) > max {
      TotalConcat(chunks, [chunk]);
      assert (chunks + [chunk])[1..] == chunks[1..] + [chunk];
      FittingIncremental(max, chunks[1..], chunk);
    }
  }

  /**
   Main result: appending chunk by chunk keeps the longest suffix of the whole
   log, its size, and the truncation mark.
   */
  lemma AppendRefines(max: int, log: seq<Text>, seeded: bool, chunk: Text)
    ensures Append(max, HistoryOf(max, log, seeded), chunk) == HistoryOf(max, log + [chunk], seeded)
  {
    assert (log + [chunk])[..|log|] == log;
    if max > 0 && Size(chunk) > 0 {
      var all := Effective(log);
      var kept := Fitting(max, all);
      var next := History(kept + [chunk], Total(kept) + Size(chunk), seeded || |kept| < |all|);
      TotalConcat(kept, [chunk]);
      TrimReachesFitting(max, next);
      FittingIncremental(max, all, chunk);
      FittingIsLongest(max, all, 0);
      FittingIsLongest(max, kept + [chunk], 0);
      assert Effective(log + [chunk]) == all + [chunk];
    }
  }

  /** Main result: the counter is the UTF-8 length of what `output` shows, and with a positive cap never exceeds it. */
  lemma CounterIsOutputSize(max: int, log: seq<Text>, seeded: bool)
    ensures var h := HistoryOf(max, log, seeded);
            && h.bytes == |Encode(Join(h.chunks))|
            && (max > 0 ==> h.bytes <= max)
            && (max > 0 ==> (h.truncated <==> seeded || |h.chunks| < |Effective(log)|))
            && (max <= 0 ==> h.chunks == [] && h.truncated == seeded)
  {
    if max > 0 {
      TotalIsJoinedSize(Fitting(max, Effective(log)));
      FittingIsLongest(max, Effective(log), 0);
    }
  }

  /** The final clamp of a negative counter never does anything. */
  lemma ClampIsDead(max: nat, h: History, chunk: Text)
    requires h.bytes == Total(h.chunks)
    ensures var t := Trim(max, h.(chunks := h.chunks + [chunk], bytes := h.bytes + Size(chunk)));
            Clamp(t) == t && t.bytes == Total(t.chunks)
  {
    TotalConcat(h.chunks, [chunk]);
    TrimReachesFitting(max, h.(chunks := h.chunks + [chunk], bytes := h.bytes + Size(chunk)));
  }

  /** One chunk bigger than the cap empties the history, itself included. */
  lemma OversizedChunkEmpties(max: int, log: seq<Text>, seeded: bool, chunk: Text)
    requires 0 < max < Size(chunk)
    ensures HistoryOf(max, log + [chunk], seeded) == History([], 0, true)
  {
    assert (log + [chunk])[..|log|] == log;
    var all := Effective(log + [chunk]);
    assert all == Effective(log) + [chunk];
    FittingIsLongest(max, all, 0);
    var kept := Fitting(max, all);
    if kept != [] {
      assert kept == kept[..|kept| - 1] + [chunk];
      TotalConcat(kept[..|kept| - 1], [chunk]);
      assert false;
    }
  }
}
