/** The built-in stable sort, as insertion from the back, and its interplay with filters. */
module Sorting {

  function Filter<T>(xs: seq<T>, p: T -> bool): seq<T> {
    if xs == [] then []
    else
      var front := Filter(xs[..|xs| - 1], p);
      if p(xs[|xs| - 1]) then front + [xs[|xs| - 1]] else front
  }

  ghost predicate SortedBy<T>(xs: seq<T>, key: T -> real) {
    forall i, j :: 0 <= i < j < |xs| ==> key(xs[i]) <= key(xs[j])
  }

  /** Insert behind everything whose key is not larger. */
  function Insert<T>(xs: seq<T>, x: T, key: T -> real): seq<T> {
    if xs == [] || key(xs[|xs| - 1]) <= key(x) then xs + [x]
    else Insert(xs[..|xs| - 1], x, key) + [xs[|xs| - 1]]
  }

  /** Stable ascending sort. */
  function SortBy<T>(xs: seq<T>, key: T -> real): seq<T> {
    if xs == [] then [] else Insert(SortBy(xs[..|xs| - 1], key), xs[|xs| - 1], key)
  }

  lemma {:induction false} InsertContents<T>(xs: seq<T>, x: T, key: T -> real)
    ensures multiset(Insert(xs, x, key)) == multiset(xs) + multiset{x}
    ensures |Insert(xs, x, key)| == |xs| + 1
  {
    if !(xs == [] || key(xs[|xs| - 1]) <= key(x)) {
      InsertContents(xs[..|xs| - 1], x, key);
      assert xs == xs[..|xs| - 1] + [xs[|xs| - 1]];
    }
  }

  lemma {:induction false} InsertSorted<T>(xs: seq<T>, x: T, key: T -> real)
    requires SortedBy(xs, key)
    ensures SortedBy(Insert(xs, x, key), key)
  {
    if !(xs == [] || key(xs[|xs| - 1]) <= key(x)) {
      var front, last := xs[..|xs| - 1], xs[|xs| - 1];
      InsertSorted(front, x, key);
      var r := Insert(front, x, key);
      InsertContents(front, x, key);
      forall i | 0 <= i < |r|
        ensures key(r[i]) <= key(last)
      {
        assert r[i] in multiset(r);
        assert r[i] == x || r[i] in front;
      }
    }
  }

  /** Sorting permutes and orders. */
  lemma {:induction false} SortOrders<T>(xs: seq<T>, key: T -> real)
    ensures multiset(SortBy(xs, key)) == multiset(xs)
    ensures |SortBy(xs, key)| == |xs|
    ensures SortedBy(SortBy(xs, key), key)
  {
    if xs != [] {
      var front, last := xs[..|xs| - 1], xs[|xs| - 1];
      SortOrders(front, key);
      InsertContents(SortBy(front, key), last, key);
      InsertSorted(SortBy(front, key), last, key);
      assert xs == front + [last];
    }
  }

  lemma FilterAppend<T>(xs: seq<T>, x: T, p: T -> bool)
    ensures Filter(xs + [x], p) == if p(x) then Filter(xs, p) + [x] else Filter(xs, p)
  {
    assert (xs + [x])[..|xs|] == xs;
  }

  lemma {:induction false} FilterAll<T>(xs: seq<T>, p: T -> bool)
    requires forall x :: x in xs ==> p(x)
    ensures Filter(xs, p) == xs
  {
    if xs != [] {
      FilterAll(xs[..|xs| - 1], p);
    }
  }

  lemma {:induction false} FilterContents<T>(xs: seq<T>, p: T -> bool, x: T)
    ensures x in Filter(xs, p) <==> x in xs && p(x)
  {
    if xs != [] {
      FilterContents(xs[..|xs| - 1], p, x);
      assert xs == xs[..|xs| - 1] + [xs[|xs| - 1]];
    }
  }

  lemma {:induction false} InsertThenFilter<T>(xs: seq<T>, x: T, key: T -> real, p: T -> bool)
    requires SortedBy(xs, key)
    ensures Filter(Insert(xs, x, key), p) == if p(x) then Insert(Filter(xs, p), x, key) else Filter(xs, p)
  {
    if xs != [] {
      var front, last := xs[..|xs| - 1], xs[|xs| - 1];
      if key(last) <= key(x) {
        FilterAppend(xs, x, p);
        var kept := Filter(xs, p);
        if kept != [] {
          FilterContents(xs, p, kept[|kept| - 1]);
        }
      } else {
        InsertThenFilter(front, x, key, p);
        FilterAppend(Insert(front, x, key), last, p);
        if p(last) {
          assert (Filter(front, p) + [last])[..|Filter(front, p)|] == Filter(front, p);
        }
      }
    } else {
      FilterAppend(xs, x, p);
    }
  }

  /** Sorting the kept items is keeping the sorted ones, ties included. */
  lemma {:induction false} SortCommutesWithFilter<T>(xs: seq<T>, key: T -> real, p: T -> bool)
    ensures Filter(SortBy(xs, key), p) == SortBy(Filter(xs, p), key)
  {
    if xs != [] {
      var front, last := xs[..|xs| - 1], xs[|xs| - 1];
      SortCommutesWithFilter(front, key, p);
      SortOrders(front, key);
      InsertThenFilter(SortBy(front, key), last, key, p);
      if p(last) {
        assert (Filter(front, p) + [last])[..|Filter(front, p)|] == Filter(front, p);
      }
    }
  }

  lemma {:induction false} SortEqualKeys<T>(xs: seq<T>, key: T -> real, k: real)
    requires forall x :: x in xs ==> key(x) == k
    ensures SortBy(xs, key) == xs
  {
    if xs != [] {
      var front, last := xs[..|xs| - 1], xs[|xs| - 1];
      assert xs == front + [last];
      SortEqualKeys(front, key, k);
    }
  }

  /** Stability: the items of one key keep their original order. */
  lemma SortIsStable<T>(xs: seq<T>, key: T -> real, k: real)
    ensures Filter(SortBy(xs, key), x => key(x) == k) == Filter(xs, x => key(x) == k)
  {
    var p := x => key(x) == k;
    SortCommutesWithFilter(xs, key, p);
    forall x | x in Filter(xs, p)
      ensures key(x) == k
    {
      FilterContents(xs, p, x);
    }
    SortEqualKeys(Filter(xs, p), key, k);
  }
}
