/** Sorting, and why its result does not depend on the order of its input. */
module Ordering {

  /** The order of strings by code point. */
  predicate StringBefore(a: string, b: string) {
    b != [] && (a == [] || a[0] < b[0] || (a[0] == b[0] && StringBefore(a[1..], b[1..])))
  }

  lemma {:induction false} StringBeforeTransitive(a: string, b: string, c: string)
    requires StringBefore(a, b) && StringBefore(b, c)
    ensures StringBefore(a, c)
  {
    if a != [] && a[0] == b[0] && b[0] == c[0] {
      StringBeforeTransitive(a[1..], b[1..], c[1..]);
    }
  }

  lemma {:induction false} StringBeforeTotal(a: string, b: string)
    ensures !(StringBefore(a, b) && StringBefore(b, a))
    ensures a == b <==> !StringBefore(a, b) && !StringBefore(b, a)
  {
    if a != [] && b != [] && a[0] == b[0] {
      StringBeforeTotal(a[1..], b[1..]);
      assert a == [a[0]] + a[1..] && b == [b[0]] + b[1..];
    }
  }

  /** The strings agree up to `i`, where the first one ends or has the smaller character. */
  predicate DiffersAt(a: string, b: string, i: nat) {
    && i <= |a| && i < |b| && a[..i] == b[..i]
    && (i == |a| || a[i] < b[i])
  }

  lemma HeadsAgree(a: string, b: string, i: nat)
    ensures DiffersAt(a, b, i) && i > 0 ==> a != [] && a[0] == b[0]
  {
    if 0 < i <= |a| && i < |b| {
      assert a[..i][0] == a[0] && b[..i][0] == b[0];
    }
  }

  lemma {:induction false} StringBeforeIff(a: string, b: string)
    ensures StringBefore(a, b) <==> exists i: nat :: i <= |a| && DiffersAt(a, b, i)
  {
    if b == [] {
    } else if a == [] || a[0] != b[0] {
      if a == [] || a[0] < b[0] {
        assert DiffersAt(a, b, 0);
      }
      forall i: nat ensures DiffersAt(a, b, i) && i > 0 ==> a != [] && a[0] == b[0] {
        HeadsAgree(a, b, i);
      }
    } else {
      StringBeforeIff(a[1..], b[1..]);
      assert !DiffersAt(a, b, 0);
      forall i: nat ensures DiffersAt(a[1..], b[1..], i) == DiffersAt(a, b, i + 1) {
        if i + 1 <= |a| && i + 1 < |b| {
          assert a[..i + 1] == [a[0]] + a[1..][..i] && b[..i + 1] == [b[0]] + b[1..][..i];
          assert a[1..][..i] == a[..i + 1][1..] && b[1..][..i] == b[..i + 1][1..];
        }
      }
      if i: nat :| i <= |a| && DiffersAt(a, b, i) {
        var k: nat := i - 1;
        assert DiffersAt(a[1..], b[1..], k);
      }
    }
  }

  /** A strict order whose ties are an equivalence. */
  ghost predicate StrictOrder<T(!new)>(before: (T, T) -> bool) {
    && (forall a, b :: before(a, b) ==> !before(b, a))
    && (forall a, b, c :: before(a, b) && before(b, c) ==> before(a, c))
    && (forall a, b, c :: !before(a, b) && !before(b, c) ==> !before(a, c))
  }

  predicate Ascending<T>(xs: seq<T>, before: (T, T) -> bool) {
    forall i, j :: 0 <= i < j < |xs| ==> before(xs[i], xs[j])
  }

  predicate Sorted<T>(xs: seq<T>, before: (T, T) -> bool) {
    forall i, j :: 0 <= i < j < |xs| ==> !before(xs[j], xs[i])
  }

  function Insert<T>(x: T, xs: seq<T>, before: (T, T) -> bool): seq<T> {
    if xs == [] || !before(xs[0], x) then [x] + xs else [xs[0]] + Insert(x, xs[1..], before)
  }

  /** A stable sort. */
  function Sort<T>(xs: seq<T>, before: (T, T) -> bool): seq<T> {
    if xs == [] then [] else Insert(xs[0], Sort(xs[1..], before), before)
  }

  lemma {:induction false} InsertKeeps<T>(x: T, xs: seq<T>, before: (T, T) -> bool)
    ensures multiset(Insert(x, xs, before)) == multiset([x] + xs)
  {
    if xs != [] && before(xs[0], x) {
      InsertKeeps(x, xs[1..], before);
      assert [x] + xs == [x] + ([xs[0]] + xs[1..]);
    }
  }

  lemma {:induction false} SortKeeps<T>(xs: seq<T>, before: (T, T) -> bool)
    ensures multiset(Sort(xs, before)) == multiset(xs)
  {
    if xs == [] {
    } else {
      SortKeeps(xs[1..], before);
      InsertKeeps(xs[0], Sort(xs[1..], before), before);
      assert xs == [xs[0]] + xs[1..];
    }
  }

  lemma SortSame<T>(xs: seq<T>, before: (T, T) -> bool)
    ensures forall x :: x in Sort(xs, before) <==> x in xs
  {
    SortKeeps(xs, before);
    forall x ensures x in Sort(xs, before) <==> x in xs {
      assert x in multiset(Sort(xs, before)) <==> x in multiset(xs);
    }
  }

  lemma InsertHas<T>(x: T, xs: seq<T>, before: (T, T) -> bool, y: T)
    requires y in Insert(x, xs, before)
    ensures y == x || y in xs
  {
    InsertKeeps(x, xs, before);
    assert y in multiset([x] + xs);
    assert y in [x] + xs;
  }

  lemma {:induction false} InsertSorted<T(!new)>(x: T, xs: seq<T>, before: (T, T) -> bool)
    requires StrictOrder(before) && Sorted(xs, before)
    ensures Sorted(Insert(x, xs, before), before)
  {
    if xs != [] && before(xs[0], x) {
      var tail := Insert(x, xs[1..], before);
      InsertSorted(x, xs[1..], before);
      forall j | 0 <= j < |tail| ensures !before(tail[j], xs[0]) {
        InsertHas(x, xs[1..], before, tail[j]);
        if tail[j] in xs[1..] {
          var k :| 0 <= k < |xs| - 1 && xs[1..][k] == tail[j];
          assert xs[k + 1] == tail[j];
        }
      }
    } else if xs != [] {
      forall j | 0 <= j < |xs| ensures !before(xs[j], x) {
        assert j > 0 ==> !before(xs[j], xs[0]);
      }
    }
  }

  lemma {:induction false} SortSorted<T(!new)>(xs: seq<T>, before: (T, T) -> bool)
    requires StrictOrder(before)
    ensures Sorted(Sort(xs, before), before)
  {
    if xs != [] {
      SortSorted(xs[1..], before);
      InsertSorted(xs[0], Sort(xs[1..], before), before);
    }
  }

  /** No two positions tie. */
  predicate Comparable<T>(xs: seq<T>, before: (T, T) -> bool) {
    forall i, j :: 0 <= i < j < |xs| ==> before(xs[i], xs[j]) || before(xs[j], xs[i])
  }

  lemma {:induction false} InsertAscending<T(!new)>(x: T, xs: seq<T>, before: (T, T) -> bool)
    requires StrictOrder(before) && Ascending(xs, before)
    requires forall y :: y in xs ==> before(x, y) || before(y, x)
    ensures Ascending(Insert(x, xs, before), before)
  {
    if xs != [] && before(xs[0], x) {
      var tail := Insert(x, xs[1..], before);
      InsertAscending(x, xs[1..], before);
      forall j | 0 <= j < |tail| ensures before(xs[0], tail[j]) {
        InsertHas(x, xs[1..], before, tail[j]);
        if tail[j] in xs[1..] {
          var k :| 0 <= k < |xs| - 1 && xs[1..][k] == tail[j];
          assert xs[k + 1] == tail[j];
        }
      }
    } else if xs != [] {
      assert before(x, xs[0]);
    }
  }

  lemma {:induction false} SortAscending<T(!new)>(xs: seq<T>, before: (T, T) -> bool)
    requires StrictOrder(before) && Comparable(xs, before)
    ensures Ascending(Sort(xs, before), before)
  {
    if xs != [] {
      SortAscending(xs[1..], before);
      SortSame(xs[1..], before);
      forall y | y in Sort(xs[1..], before) ensures before(xs[0], y) || before(y, xs[0]) {
        assert y in xs[1..];
        var k :| 0 <= k < |xs| - 1 && xs[1..][k] == y;
        assert xs[k + 1] == y;
      }
      InsertAscending(xs[0], Sort(xs[1..], before), before);
    }
  }

  /** There is one ascending sequence with given elements. */
  lemma {:induction false} AscendingUnique<T(!new)>(a: seq<T>, b: seq<T>, before: (T, T) -> bool)
    requires StrictOrder(before) && Ascending(a, before) && Ascending(b, before)
    requires forall x :: x in a <==> x in b
    ensures a == b
    decreases |a|
  {
    if a == [] {
      if b != [] {
        HasElement(b);
      }
    } else {
      assert a[0] in b && (b != [] ==> b[0] in a);
      assert a[0] == b[0];
      forall x ensures x in a[1..] <==> x in b[1..] {
        TailHas(a, before, x);
        TailHas(b, before, x);
      }
      AscendingUnique(a[1..], b[1..], before);
      assert a == [a[0]] + a[1..] && b == [b[0]] + b[1..];
    }
  }

  lemma HasElement<T>(xs: seq<T>)
    requires xs != []
    ensures exists x :: x in xs
  {
    assert xs[0] in xs;
  }

  lemma TailHas<T(!new)>(a: seq<T>, before: (T, T) -> bool, x: T)
    requires StrictOrder(before) && Ascending(a, before) && a != []
    ensures x in a[1..] <==> x in a && x != a[0]
  {
    if x in a[1..] {
      var k :| 0 <= k < |a| - 1 && a[1..][k] == x;
      assert a[k + 1] == x && before(a[0], a[k + 1]);
    }
    assert a == [a[0]] + a[1..];
  }
}
