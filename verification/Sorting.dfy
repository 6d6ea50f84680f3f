/** Python's order on strings and tuples, and its stable `list.sort`. */
module Sorting {
  import opened Strings

  // ---- ordering -------------------------------------------------------

  /** Python's order on strings and tuples: the first difference decides, a proper prefix comes first. */
  predicate LexLess(a: seq<int>, b: seq<int>) {
    b != [] && (a == [] || a[0] < b[0] || (a[0] == b[0] && LexLess(a[1..], b[1..])))
  }

  lemma {:induction false} LexTotal(a: seq<int>, b: seq<int>)
    ensures a == b || LexLess(a, b) || LexLess(b, a)
    ensures !(LexLess(a, b) && LexLess(b, a)) && !LexLess(a, a)
    decreases |a| + |b|
  {
    if a != [] && b != [] {
      if a[0] == b[0] {
        LexTotal(a[1..], b[1..]);
        assert a[1..] == b[1..] ==> a == [a[0]] + a[1..] == [b[0]] + b[1..] == b;
      }
    }
    if a != [] {
      LexIrreflexive(a);
    }
  }

  lemma {:induction false} LexIrreflexive(a: seq<int>)
    ensures !LexLess(a, a)
  {
    if a != [] {
      LexIrreflexive(a[1..]);
    }
  }

  lemma {:induction false} LexTransitive(a: seq<int>, b: seq<int>, c: seq<int>)
    requires LexLess(a, b) && LexLess(b, c)
    ensures LexLess(a, c)
  {
    if a != [] && a[0] == b[0] == c[0] {
      LexTransitive(a[1..], b[1..], c[1..]);
    }
  }

  lemma LexOne(a: int, b: int)
    ensures LexLess([a], [b]) <==> a < b
  {
    var p, q: seq<int> := [a], [b];
    assert p[1..] == [] == q[1..];
  }

  lemma LexPair(a: int, b: int, c: int, d: int)
    ensures LexLess([a, b], [c, d]) <==> a < c || (a == c && b < d)
  {
    var p, q: seq<int> := [a, b], [c, d];
    var p1, q1: seq<int> := [b], [d];
    assert p[1..] == p1 && q[1..] == q1 && p1[1..] == [] == q1[1..];
    assert LexLess(p1, q1) <==> b < d;
    assert LexLess(p, q) <==> a < c || (a == c && LexLess(p1, q1));
  }

  /** A sort key: numbers compared in turn, then the session id. */
  datatype Key = Key(parts: seq<int>, id: Text)

  predicate KeyLess(a: Key, b: Key) {
    LexLess(a.parts, b.parts) || (a.parts == b.parts && LexLess(a.id, b.id))
  }

  lemma KeyOrder(a: Key, b: Key, c: Key)
    ensures a == b || KeyLess(a, b) || KeyLess(b, a)
    ensures !(KeyLess(a, b) && KeyLess(b, a)) && !KeyLess(a, a)
    ensures KeyLess(a, b) && KeyLess(b, c) ==> KeyLess(a, c)
  {
    LexTotal(a.parts, b.parts);
    LexTotal(a.id, b.id);
    LexTotal(a.parts, a.parts);
    LexTotal(a.id, a.id);
    if KeyLess(a, b) && KeyLess(b, c) {
      if LexLess(a.parts, b.parts) && LexLess(b.parts, c.parts) {
        LexTransitive(a.parts, b.parts, c.parts);
      } else if a.parts == b.parts == c.parts {
        LexTransitive(a.id, b.id, c.id);
      }
    }
  }

  // ---- sorting --------------------------------------------------------

  /** Stable insertion: before exactly those at the end that must come later. */
  function Insert<T>(before: (T, T) -> bool, s: seq<T>, x: T): seq<T> {
    if s != [] && before(x, s[|s| - 1]) then Insert(before, s[..|s| - 1], x) + [s[|s| - 1]] else s + [x]
  }

  /** `list.sort`: the stable sort by an order. */
  function Sort<T>(before: (T, T) -> bool, s: seq<T>): seq<T> {
    if s == [] then [] else Insert(before, Sort(before, s[..|s| - 1]), s[|s| - 1])
  }

  ghost predicate StrictOrder<T(!new)>(before: (T, T) -> bool) {
    && (forall a, b :: before(a, b) ==> !before(b, a))
    && (forall a, b, c :: before(a, b) && before(b, c) ==> before(a, c))
  }

  /** Any two entries are ordered one way or the other. */
  ghost predicate Comparable<T(!new)>(before: (T, T) -> bool, s: seq<T>) {
    forall i, j :: 0 <= i < j < |s| ==> before(s[i], s[j]) || before(s[j], s[i])
  }

  ghost predicate Sorted<T(!new)>(before: (T, T) -> bool, s: seq<T>) {
    forall i, j :: 0 <= i < j < |s| ==> before(s[i], s[j])
  }

  lemma {:induction false} InsertSorted<T(!new)>(before: (T, T) -> bool, s: seq<T>, x: T)
    requires StrictOrder(before) && Sorted(before, s)
    requires forall i :: 0 <= i < |s| ==> before(s[i], x) || before(x, s[i])
    ensures Sorted(before, Insert(before, s, x)) && multiset(Insert(before, s, x)) == multiset(s) + multiset{x}
  {
    if s != [] {
      var init, last := s[..|s| - 1], s[|s| - 1];
      assert s == init + [last];
      if before(x, last) {
        InsertSorted(before, init, x);
        var r := Insert(before, init, x);
        forall i | 0 <= i < |r| ensures before(r[i], last) {
          assert r[i] in multiset(r);
        }
      } else {
        assert before(last, x);
      }
    }
  }

  lemma {:induction false} SortSorts<T(!new)>(before: (T, T) -> bool, s: seq<T>)
    requires StrictOrder(before) && Comparable(before, s)
    ensures Sorted(before, Sort(before, s)) && multiset(Sort(before, s)) == multiset(s)
  {
    if s != [] {
      var init, last := s[..|s| - 1], s[|s| - 1];
      assert s == init + [last];
      SortSorts(before, init);
      var r := Sort(before, init);
      forall i | 0 <= i < |r| ensures before(r[i], last) || before(last, r[i]) {
        assert r[i] in multiset(r);
        assert r[i] in init;
      }
      InsertSorted(before, r, last);
    }
  }

  /** There is only one sorted arrangement of given entries. */
  lemma {:induction false} SortedUnique<T(!new)>(before: (T, T) -> bool, a: seq<T>, b: seq<T>)
    requires StrictOrder(before) && Sorted(before, a) && Sorted(before, b) && multiset(a) == multiset(b)
    ensures a == b
  {
    SameLength(a, b);
    if a != [] {
      SameFirst(before, a, b);
      SameRest(a, b);
      RestSorted(before, a);
      RestSorted(before, b);
      SortedUnique(before, a[1..], b[1..]);
      Rejoined(a, b);
    }
  }

  lemma SameRest<T>(a: seq<T>, b: seq<T>)
    requires a != [] && b != [] && a[0] == b[0] && multiset(a) == multiset(b)
    ensures multiset(a[1..]) == multiset(b[1..])
  {
    WithoutFirst(a);
    WithoutFirst(b);
  }

  lemma Rejoined<T>(a: seq<T>, b: seq<T>)
    requires a != [] && b != [] && a[0] == b[0] && a[1..] == b[1..]
    ensures a == b
  {
    assert a == [a[0]] + a[1..] && b == [b[0]] + b[1..];
  }

  lemma SameLength<T>(a: seq<T>, b: seq<T>)
    requires multiset(a) == multiset(b)
    ensures |a| == |b|
  {
    assert |a| == |multiset(a)| && |b| == |multiset(b)|;
  }

  lemma RestSorted<T(!new)>(before: (T, T) -> bool, s: seq<T>)
    requires Sorted(before, s) && s != []
    ensures Sorted(before, s[1..])
  {
  }

  lemma WithoutFirst<T>(s: seq<T>)
    requires s != []
    ensures multiset(s[1..]) == multiset(s) - multiset{s[0]}
  {
    assert s == [s[0]] + s[1..];
  }

  lemma SameFirst<T(!new)>(before: (T, T) -> bool, a: seq<T>, b: seq<T>)
    requires StrictOrder(before) && Sorted(before, a) && Sorted(before, b) && multiset(a) == multiset(b)
    requires a != [] && b != []
    ensures a[0] == b[0]
  {
    assert a[0] in multiset(b) && b[0] in multiset(a);
    var i :| 0 <= i < |b| && b[i] == a[0];
    var j :| 0 <= j < |a| && a[j] == b[0];
  }

  /** Main result: sorting is a strictly ascending permutation that does not depend on the order of its input. */
  lemma SortIsCanonical<T(!new)>(before: (T, T) -> bool, a: seq<T>, b: seq<T>)
    requires StrictOrder(before) && Comparable(before, a) && Comparable(before, b) && multiset(a) == multiset(b)
    ensures Sort(before, a) == Sort(before, b)
    ensures Sorted(before, Sort(before, a)) && multiset(Sort(before, a)) == multiset(a)
  {
    SortSorts(before, a);
    SortSorts(before, b);
    SortedUnique(before, Sort(before, a), Sort(before, b));
  }

  lemma SameElements<T>(a: seq<T>, b: seq<T>)
    requires multiset(a) == multiset(b)
    ensures forall x :: x in a <==> x in b
  {
    forall x ensures x in a <==> x in b {
      assert x in a <==> x in multiset(a);
    }
  }
}
