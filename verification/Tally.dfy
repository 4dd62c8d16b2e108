/** Counting the elements of a sequence that a predicate accepts. */
module Tally {
  function Number<T>(xs: seq<T>, p: T -> bool): (n: nat)
    ensures n <= |xs|
  {
    if xs == [] then 0 else Number(xs[..|xs| - 1], p) + (if p(xs[|xs| - 1]) then 1 else 0)
  }

  lemma NumberSnoc<T>(xs: seq<T>, x: T, p: T -> bool)
    ensures Number(xs + [x], p) == Number(xs, p) + if p(x) then 1 else 0
  {
    assert (xs + [x])[..|xs|] == xs;
  }

  function KeyIs<T, K(==)>(f: T -> K, k: K): T -> bool {
    (x: T) => f(x) == k
  }

  /** How many elements have each key. */
  function TallyBy<T, K(==)>(xs: seq<T>, f: T -> K, keys: set<K>): map<K, nat> {
    map k | k in keys :: Number(xs, KeyIs(f, k))
  }

  lemma TallySnoc<T, K>(xs: seq<T>, x: T, f: T -> K, keys: set<K>)
    requires f(x) in keys
    ensures TallyBy(xs, f, keys).Keys == keys
    ensures TallyBy(xs + [x], f, keys) == TallyBy(xs, f, keys)[f(x) := TallyBy(xs, f, keys)[f(x)] + 1]
  {
    forall k | k in keys
      ensures Number(xs + [x], KeyIs(f, k)) == Number(xs, KeyIs(f, k)) + if f(x) == k then 1 else 0
    {
      NumberSnoc(xs, x, KeyIs(f, k));
    }
  }

  lemma {:induction false} NumberFewer<T>(xs: seq<T>, p: T -> bool, q: T -> bool)
    requires forall x | x in xs :: p(x) ==> q(x)
    ensures Number(xs, p) <= Number(xs, q)
  {
    if xs != [] {
      NumberFewer(xs[..|xs| - 1], p, q);
    }
  }

  lemma {:induction false} NumberSplit<T>(xs: seq<T>, p: T -> bool, q: T -> bool, r: T -> bool)
    requires forall x | x in xs :: (p(x) <==> q(x) || r(x)) && !(q(x) && r(x))
    ensures Number(xs, p) == Number(xs, q) + Number(xs, r)
  {
    if xs != [] {
      NumberSplit(xs[..|xs| - 1], p, q, r);
    }
  }

  /** The sum of a quantity over the elements. */
  function SumOf<T>(xs: seq<T>, f: T -> int): int {
    if xs == [] then 0 else SumOf(xs[..|xs| - 1], f) + f(xs[|xs| - 1])
  }

  lemma {:induction false} SumPlus<T>(xs: seq<T>, ys: seq<T>, f: T -> int)
    ensures SumOf(xs + ys, f) == SumOf(xs, f) + SumOf(ys, f)
  {
    if ys == [] {
      assert xs + ys == xs;
    } else {
      assert (xs + ys)[..|xs + ys| - 1] == xs + ys[..|ys| - 1];
      SumPlus(xs, ys[..|ys| - 1], f);
    }
  }

  lemma SumWithout<T>(ys: seq<T>, k: nat, f: T -> int)
    requires k < |ys|
    ensures var rest := ys[..k] + ys[k + 1..];
      && multiset(ys) == multiset(rest) + multiset{ys[k]}
      && SumOf(ys, f) == SumOf(rest, f) + SumOf([ys[k]], f)
  {
    assert ys == ys[..k] + [ys[k]] + ys[k + 1..];
    SumPlus(ys[..k] + [ys[k]], ys[k + 1..], f);
    SumPlus(ys[..k], [ys[k]], f);
    SumPlus(ys[..k], ys[k + 1..], f);
  }

  /** A sum does not depend on the order. */
  lemma {:induction false} SumPermuted<T>(xs: seq<T>, ys: seq<T>, f: T -> int)
    requires multiset(xs) == multiset(ys)
    ensures SumOf(xs, f) == SumOf(ys, f)
  {
    if xs == [] {
      assert |multiset(ys)| == |ys|;
    } else {
      var front, last := xs[..|xs| - 1], xs[|xs| - 1];
      assert xs == front + [last];
      assert last in multiset(xs) && last in multiset(ys);
      var k :| 0 <= k < |ys| && ys[k] == last;
      SumWithout(ys, k, f);
      assert multiset(front) == multiset(xs) - multiset{last};
      SumPermuted(front, ys[..k] + ys[k + 1..], f);
      SumPlus(front, [last], f);
    }
  }

  lemma {:induction false} NumberIsSum<T>(xs: seq<T>, p: T -> bool)
    ensures Number(xs, p) == SumOf(xs, (x: T) => if p(x) then 1 else 0)
  {
    if xs != [] {
      NumberIsSum(xs[..|xs| - 1], p);
    }
  }

  /** A count does not depend on the order. */
  lemma NumberPermuted<T>(xs: seq<T>, ys: seq<T>, p: T -> bool)
    requires multiset(xs) == multiset(ys)
    ensures Number(xs, p) == Number(ys, p)
  {
    NumberIsSum(xs, p);
    NumberIsSum(ys, p);
    SumPermuted(xs, ys, (x: T) => if p(x) then 1 else 0);
  }
}
