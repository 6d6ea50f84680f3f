/** Python strings as sequences of code points, and the few string methods the models need. */
module Strings {
  import opened Wrappers

  /** A Python code point, surrogates included. */
  type CodePoint = c: int | 0 <= c < 0x110000

  type Text = seq<CodePoint>

  function Lit(s: string): (t: Text)
    ensures |t| == |s| && forall i :: 0 <= i < |s| ==> t[i] == s[i] as int
  {
    seq(|s|, i requires 0 <= i < |s| => s[i] as int)
  }

  /** `str.isspace` of one character. */
  predicate IsSpace(c: CodePoint) {
    || 0x09 <= c <= 0x0D || 0x1C <= c <= 0x20 || c == 0x85 || c == 0xA0 || c == 0x1680
    || 0x2000 <= c <= 0x200A || c == 0x2028 || c == 0x2029 || c == 0x202F || c == 0x205F || c == 0x3000
  }

  predicate AllSpaces(t: Text) {
    forall i :: 0 <= i < |t| ==> IsSpace(t[i])
  }

  /** Neither the first nor the last character is whitespace. */
  predicate Trimmed(t: Text) {
    t != [] ==> !IsSpace(t[0]) && !IsSpace(t[|t| - 1])
  }

  function LStrip(t: Text): Text {
    if t != [] && IsSpace(t[0]) then LStrip(t[1..]) else t
  }

  function RStrip(t: Text): Text {
    if t != [] && IsSpace(t[|t| - 1]) then RStrip(t[..|t| - 1]) else t
  }

  function Strip(t: Text): Text {
    RStrip(LStrip(t))
  }

  /** An optional string stripped, and left out when nothing remains. */
  function NonBlank(t: Option<Text>): Option<Text> {
    if t.Some? && Strip(t.value) != [] then Some(Strip(t.value)) else None
  }

  predicate OccursAt(hay: Text, needle: Text, i: nat) {
    i + |needle| <= |hay| && hay[i..i + |needle|] == needle
  }

  predicate Contains(hay: Text, needle: Text) {
    exists i: nat :: i <= |hay| && OccursAt(hay, needle, i)
  }

  /** `t[from:to]`, empty when the bounds cross. */
  function Slice(t: Text, from: nat, to: nat): Text {
    if from <= to <= |t| then t[from..to] else []
  }

  /** `hay.find(needle, from)`: the first occurrence from a position on. */
  function Find(hay: Text, needle: Text, from: nat): (r: Option<nat>)
    ensures r.Some? ==> from <= r.value && OccursAt(hay, needle, r.value)
    ensures r.Some? ==> forall i: nat :: from <= i < r.value ==> !OccursAt(hay, needle, i)
    ensures r.None? ==> forall i: nat :: from <= i ==> !OccursAt(hay, needle, i)
    decreases |hay| - from
  {
    if from + |needle| > |hay| then None
    else if OccursAt(hay, needle, from) then Some(from)
    else Find(hay, needle, from + 1)
  }

  /** The last occurrence that starts before `bound`. */
  function FindBefore(hay: Text, needle: Text, bound: nat): (r: Option<nat>)
    ensures r.Some? ==> r.value < bound && OccursAt(hay, needle, r.value)
    ensures r.Some? ==> forall i: nat :: r.value < i < bound ==> !OccursAt(hay, needle, i)
    ensures r.None? ==> forall i: nat :: i < bound ==> !OccursAt(hay, needle, i)
  {
    if bound == 0 then None
    else if OccursAt(hay, needle, bound - 1) then Some(bound - 1)
    else FindBefore(hay, needle, bound - 1)
  }

  /** `hay.rfind(needle)`: the last occurrence. */
  function RFind(hay: Text, needle: Text): (r: Option<nat>)
    ensures r.Some? ==> OccursAt(hay, needle, r.value)
    ensures r.Some? ==> forall i: nat :: r.value < i ==> !OccursAt(hay, needle, i)
    ensures r.None? ==> !Contains(hay, needle)
  {
    FindBefore(hay, needle, |hay| + 1)
  }

  lemma SliceOfSlice(t: Text, from: nat, to: nat, i: nat, j: nat)
    requires from <= i <= j <= to <= |t|
    ensures t[from..to][i - from..j - from] == t[i..j]
  {
    var a, b := t[from..to][i - from..j - from], t[i..j];
    assert |a| == |b| && forall k :: 0 <= k < |b| ==> a[k] == b[k];
  }

  lemma {:induction false} LStripSpaces(a: Text, t: Text)
    requires AllSpaces(a) && (t != [] ==> !IsSpace(t[0]))
    ensures LStrip(a + t) == t
  {
    if a == [] {
      assert a + t == t;
    } else {
      assert (a + t)[1..] == a[1..] + t;
      LStripSpaces(a[1..], t);
    }
  }

  lemma {:induction false} RStripSpaces(t: Text, b: Text)
    requires AllSpaces(b) && (t != [] ==> !IsSpace(t[|t| - 1]))
    ensures RStrip(t + b) == t
  {
    if b == [] {
      assert t + b == t;
    } else {
      assert (t + b)[..|t + b| - 1] == t + b[..|b| - 1];
      RStripSpaces(t, b[..|b| - 1]);
    }
  }

  /** Stripping removes exactly the outer whitespace. */
  lemma StripIs(a: Text, core: Text, b: Text)
    requires AllSpaces(a) && AllSpaces(b) && Trimmed(core)
    ensures Strip(a + core + b) == core
  {
    if core == [] {
      assert a + core + b == (a + b) + [];
      LStripSpaces(a + b, []);
    } else {
      assert a + core + b == a + (core + b);
      LStripSpaces(a, core + b);
      RStripSpaces(core, b);
    }
  }

  /** A blank string counts as none, and any other as its trimmed core. */
  lemma NonBlankIs(a: Text, core: Text, b: Text)
    requires AllSpaces(a) && AllSpaces(b) && Trimmed(core)
    ensures NonBlank(Some(a + core + b)) == if core == [] then None else Some(core)
  {
    StripIs(a, core, b);
  }

  lemma {:induction false} LStripParts(t: Text) returns (a: Text)
    ensures t == a + LStrip(t) && AllSpaces(a)
    ensures LStrip(t) != [] ==> !IsSpace(LStrip(t)[0])
  {
    a := [];
    if t != [] && IsSpace(t[0]) {
      a := LStripParts(t[1..]);
      a := [t[0]] + a;
    }
  }

  lemma {:induction false} RStripParts(t: Text) returns (b: Text)
    ensures t == RStrip(t) + b && AllSpaces(b)
    ensures RStrip(t) != [] ==> !IsSpace(RStrip(t)[|RStrip(t)| - 1])
  {
    b := [];
    if t != [] && IsSpace(t[|t| - 1]) {
      b := RStripParts(t[..|t| - 1]);
      b := b + [t[|t| - 1]];
    }
  }

  /** What stripping leaves has no outer whitespace and lies between whitespace. */
  lemma StripParts(t: Text) returns (a: Text, b: Text)
    ensures t == a + Strip(t) + b && AllSpaces(a) && AllSpaces(b) && Trimmed(Strip(t))
  {
    a := LStripParts(t);
    b := RStripParts(LStrip(t));
    if Strip(t) != [] {
      assert LStrip(t)[0] == Strip(t)[0];
    }
  }
}
