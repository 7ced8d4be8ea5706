/** A stable sort by a comparator, standing in for JavaScript's `Array.prototype.sort`
    (stable since ES2019) and Python's `sorted` (stable, also with `reverse=True`).
    A stable sort's output is determined by its comparator, so one definition serves both. */
module Sorting {

  /** `le` is total and transitive: a comparator the sorts accept. */
  ghost predicate TotalPreorder<T(!new)>(le: (T, T) -> bool) {
    && (forall a, b :: le(a, b) || le(b, a))
    && (forall a, b, c :: le(a, b) && le(b, c) ==> le(a, c))
  }

  ghost predicate SortedBy<T>(xs: seq<T>, le: (T, T) -> bool) {
    forall i, j :: 0 <= i < j < |xs| ==> le(xs[i], xs[j])
  }

  predicate Equivalent<T>(a: T, b: T, le: (T, T) -> bool) {
    le(a, b) && le(b, a)
  }

  /** The elements of `xs` that the comparator cannot tell apart from `k`, in their order in `xs`. */
  function Equivalents<T>(xs: seq<T>, k: T, le: (T, T) -> bool): seq<T> {
    if xs == [] then []
    else (if Equivalent(xs[0], k, le) then [xs[0]] else []) + Equivalents(xs[1..], k, le)
  }

  /** Put `x` in front of the first element it may precede. */
  function Insert<T>(x: T, ys: seq<T>, le: (T, T) -> bool): (r: seq<T>)
    ensures multiset(r) == multiset(ys) + multiset{x}
  {
    if ys == [] then [x]
    else if le(x, ys[0]) then [x] + ys
    else
      assert ys == [ys[0]] + ys[1..];
      [ys[0]] + Insert(x, ys[1..], le)
  }

  /** Insertion sort: each element goes in front of the equal ones that followed it. */
  function InsertionSort<T>(xs: seq<T>, le: (T, T) -> bool): (r: seq<T>)
    ensures multiset(r) == multiset(xs)
    ensures |r| == |xs|
  {
    if xs == [] then []
    else
      assert xs == [xs[0]] + xs[1..];
      Insert(xs[0], InsertionSort(xs[1..], le), le)
  }

  lemma {:induction false} InsertSorted<T(!new)>(x: T, ys: seq<T>, le: (T, T) -> bool)
    requires TotalPreorder(le)
    requires SortedBy(ys, le)
    ensures SortedBy(Insert(x, ys, le), le)
  {
    if ys != [] && !le(x, ys[0]) {
      var tail := Insert(x, ys[1..], le);
      InsertSorted(x, ys[1..], le);
      forall z | z in multiset(tail) ensures le(ys[0], z) {
        assert z in multiset(ys[1..]) + multiset{x};
        if z in multiset(ys[1..]) {
          var j :| 0 <= j < |ys[1..]| && ys[1..][j] == z;
          assert ys[j + 1] == z;
        }
      }
      var r := [ys[0]] + tail;
      forall i, j | 0 <= i < j < |r| ensures le(r[i], r[j]) {
        if i == 0 {
          assert r[j] in multiset(tail);
        } else {
          assert r[i] == tail[i - 1] && r[j] == tail[j - 1];
        }
      }
    }
  }

  /** The output is ordered by the comparator. */
  lemma {:induction false} SortIsSorted<T(!new)>(xs: seq<T>, le: (T, T) -> bool)
    requires TotalPreorder(le)
    ensures SortedBy(InsertionSort(xs, le), le)
  {
    if xs != [] {
      SortIsSorted(xs[1..], le);
      InsertSorted(xs[0], InsertionSort(xs[1..], le), le);
    }
  }

  lemma {:induction false} EquivalentsAppend<T>(a: seq<T>, b: seq<T>, k: T, le: (T, T) -> bool)
    ensures Equivalents(a + b, k, le) == Equivalents(a, k, le) + Equivalents(b, k, le)
  {
    if a == [] {
      assert a + b == b;
    } else {
      var head: seq<T> := if Equivalent(a[0], k, le) then [a[0]] else [];
      var ea, eb := Equivalents(a[1..], k, le), Equivalents(b, k, le);
      assert a + b == [a[0]] + (a[1..] + b);
      EquivalentsCons(a[0], a[1..] + b, k, le);
      EquivalentsCons(a[0], a[1..], k, le);
      assert a == [a[0]] + a[1..];
      EquivalentsAppend(a[1..], b, k, le);
      assert head + (ea + eb) == (head + ea) + eb;
    }
  }

  /** Two elements on either side of a strict comparison are never both equivalent to `k`. */
  lemma NotBothEquivalent<T(!new)>(x: T, y: T, k: T, le: (T, T) -> bool)
    requires TotalPreorder(le)
    requires !le(x, y)
    ensures !(Equivalent(x, k, le) && Equivalent(y, k, le))
  {
  }

  /** The elements equivalent to `k` of `ys` with `x` inserted: `x` itself (if equivalent) first. */
  lemma {:induction false} InsertEquivalents<T(!new)>(x: T, ys: seq<T>, k: T, le: (T, T) -> bool)
    requires TotalPreorder(le)
    ensures Equivalents(Insert(x, ys, le), k, le)
         == (if Equivalent(x, k, le) then [x] else []) + Equivalents(ys, k, le)
  {
    if ys == [] {
      assert Insert(x, ys, le) == [x] + [];
      EquivalentsAppend([x], [], k, le);
    } else if le(x, ys[0]) {
      EquivalentsAppend([x], ys, k, le);
    } else {
      InsertEquivalents(x, ys[1..], k, le);
      NotBothEquivalent(x, ys[0], k, le);
      assert ys == [ys[0]] + ys[1..];
      assert Insert(x, ys, le) == [ys[0]] + Insert(x, ys[1..], le);
      PastHead(x, ys[0], Insert(x, ys[1..], le), ys[1..], k, le);
    }
  }

  lemma EquivalentsCons<T>(y: T, tail: seq<T>, k: T, le: (T, T) -> bool)
    ensures Equivalents([y] + tail, k, le) == (if Equivalent(y, k, le) then [y] else []) + Equivalents(tail, k, le)
  {
    assert ([y] + tail)[1..] == tail;
  }

  /** One step of InsertEquivalents, where `x` moves past a head `y` that is not
      equivalent to `k` together with it. */
  lemma PastHead<T>(x: T, y: T, tail: seq<T>, rest: seq<T>, k: T, le: (T, T) -> bool)
    requires !(Equivalent(x, k, le) && Equivalent(y, k, le))
    requires Equivalents(tail, k, le) == (if Equivalent(x, k, le) then [x] else []) + Equivalents(rest, k, le)
    ensures Equivalents([y] + tail, k, le)
         == (if Equivalent(x, k, le) then [x] else []) + Equivalents([y] + rest, k, le)
  {
    EquivalentsCons(y, tail, k, le);
    EquivalentsCons(y, rest, k, le);
  }

  /** Stability: the elements equivalent to any `k` keep their relative order. */
  lemma {:induction false} SortIsStable<T(!new)>(xs: seq<T>, k: T, le: (T, T) -> bool)
    requires TotalPreorder(le)
    ensures Equivalents(InsertionSort(xs, le), k, le) == Equivalents(xs, k, le)
  {
    if xs != [] {
      SortIsStable(xs[1..], k, le);
      InsertEquivalents(xs[0], InsertionSort(xs[1..], le), k, le);
    }
  }

  /** Comparing integer keys, as `(a, b) => key(a) - key(b)` does, is a total preorder. */
  lemma KeyOrderIsTotalPreorder<T(!new)>(key: T -> int)
    ensures TotalPreorder((a: T, b: T) => key(a) <= key(b))
  {
  }
}
