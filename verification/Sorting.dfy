/** Stable insertion sort on values, with the facts the other modules need. */
module Sorting {

  /** Insert `x` into `s`, behind every element that must not come after it. */
  function Insert<T>(x: T, s: seq<T>, after: (T, T) -> bool): seq<T> {
    if s == [] then [x]
    else if after(s[|s| - 1], x) then Insert(x, s[..|s| - 1], after) + [s[|s| - 1]]
    else s + [x]
  }

  /** Stable sort: `after(a, b)` says that `a` belongs strictly behind `b`. */
  function SortBy<T>(s: seq<T>, after: (T, T) -> bool): seq<T> {
    if s == [] then [] else Insert(s[|s| - 1], SortBy(s[..|s| - 1], after), after)
  }

  lemma {:induction false} InsertMultiset<T>(x: T, s: seq<T>, after: (T, T) -> bool)
    ensures multiset(Insert(x, s, after)) == multiset(s) + multiset{x}
  {
    if s != [] {
      var front, last := s[..|s| - 1], s[|s| - 1];
      assert s == front + [last];
      InsertMultiset(x, front, after);
    }
  }

  /** Sorting permutes. */
  lemma {:induction false} SortMultiset<T>(s: seq<T>, after: (T, T) -> bool)
    ensures multiset(SortBy(s, after)) == multiset(s)
    ensures |SortBy(s, after)| == |s|
  {
    if s != [] {
      var front, last := s[..|s| - 1], s[|s| - 1];
      assert s == front + [last];
      SortMultiset(front, after);
      InsertMultiset(last, SortBy(front, after), after);
    }
    assert |multiset(SortBy(s, after))| == |SortBy(s, after)|;
    assert |multiset(s)| == |s|;
  }

  lemma SortMembers<T>(s: seq<T>, after: (T, T) -> bool, x: T)
    ensures x in SortBy(s, after) <==> x in s
  {
    SortMultiset(s, after);
    assert x in multiset(SortBy(s, after)) <==> x in multiset(s);
  }

  /** A sequence has no repetition exactly when no element has multiplicity above one. */
  lemma {:induction false} DistinctMultiset<T>(s: seq<T>)
    ensures (forall i, j | 0 <= i < j < |s| :: s[i] != s[j]) <==> forall x :: multiset(s)[x] <= 1
  {
    if s != [] {
      var front, last := s[..|s| - 1], s[|s| - 1];
      DistinctMultiset(front);
      assert s == front + [last];
      assert multiset(s) == multiset(front) + multiset{last};
      if forall i, j | 0 <= i < j < |s| :: s[i] != s[j] {
        assert last !in front;
        assert multiset(front)[last] == 0;
      } else if forall x :: multiset(s)[x] <= 1 {
        assert multiset(s)[last] <= 1;
        assert last !in multiset(front);
        assert last !in front;
        forall x ensures multiset(front)[x] <= 1 { assert multiset(s)[x] <= 1; }
      }
    }
  }

  lemma SortDistinct<T>(s: seq<T>, after: (T, T) -> bool)
    requires forall i, j | 0 <= i < j < |s| :: s[i] != s[j]
    ensures |SortBy(s, after)| == |s|
    ensures forall i, j | 0 <= i < j < |s| :: SortBy(s, after)[i] != SortBy(s, after)[j]
  {
    SortMultiset(s, after);
    DistinctMultiset(s);
    DistinctMultiset(SortBy(s, after));
  }

  predicate Sorted<T>(s: seq<T>, after: (T, T) -> bool) {
    forall i, j | 0 <= i < j < |s| :: !after(s[i], s[j])
  }

  /** `after` orders strictly: it is asymmetric, and so is whatever it does not put behind. */
  ghost predicate Orders<T(!new)>(after: (T, T) -> bool) {
    && (forall a, b :: after(a, b) ==> !after(b, a))
    && (forall a, b, c :: !after(a, b) && !after(b, c) ==> !after(a, c))
  }

  lemma {:induction false} InsertSorted<T(!new)>(x: T, s: seq<T>, after: (T, T) -> bool)
    requires Orders(after) && Sorted(s, after)
    ensures Sorted(Insert(x, s, after), after)
  {
    if s != [] {
      var front, last := s[..|s| - 1], s[|s| - 1];
      if after(last, x) {
        InsertSorted(x, front, after);
        InsertMultiset(x, front, after);
        var r := Insert(x, front, after);
        forall y | y in r ensures !after(y, last) {
          assert y in multiset(front) + multiset{x};
          assert y in front || y == x;
        }
      } else {
        forall k | 0 <= k < |s| ensures !after(s[k], x) {
          assert k < |s| - 1 ==> !after(s[k], last);
        }
      }
    }
  }

  /** Sorting sorts. */
  lemma {:induction false} SortSorted<T(!new)>(s: seq<T>, after: (T, T) -> bool)
    requires Orders(after)
    ensures Sorted(SortBy(s, after), after)
  {
    if s != [] {
      SortSorted(s[..|s| - 1], after);
      InsertSorted(s[|s| - 1], SortBy(s[..|s| - 1], after), after);
    }
  }
}
