/** Rank correlation of two score tables over the candidates they share. */
module Spearman {
  import opened Plans
  import opened Sorting
  import opened Tally
  import opened Wrappers

  type Scores = map<Id, real>

  // ----- ranks --------------------------------------------------------------------------------

  lemma {:induction false} LeastExists(s: set<Id>)
    requires s != {}
    ensures exists x :: x in s && forall y | y in s :: x.key <= y.key
  {
    var a :| a in s;
    var rest := s - {a};
    if rest == {} {
      assert s == {a};
    } else {
      LeastExists(rest);
      var b :| b in rest && forall y | y in rest :: b.key <= y.key;
      var least := if a.key <= b.key then a else b;
      assert least in s && forall y | y in s :: least.key <= y.key;
    }
  }

  /** `sorted` of a set of identifiers. */
  function Listed(s: set<Id>): seq<Id> {
    if s == {} then []
    else
      LeastExists(s);
      var x :| x in s && forall y | y in s :: x.key <= y.key;
      [x] + Listed(s - {x})
  }

  lemma {:induction false} ListedIs(s: set<Id>)
    ensures |Listed(s)| == |s|
    ensures forall x :: x in Listed(s) <==> x in s
    ensures forall i, j | 0 <= i < j < |s| :: Listed(s)[i].key < Listed(s)[j].key
  {
    if s != {} {
      var x := Listed(s)[0];
      ListedIs(s - {x});
      var rest := Listed(s - {x});
      forall k | 0 <= k < |rest| ensures x.key < rest[k].key {
        assert rest[k] in s - {x};
      }
    }
  }

  /** `a` is sorted strictly behind `b`: its score is lower. */
  function Behind(scores: Scores): (Id, Id) -> bool {
    (a: Id, b: Id) => a in scores && b in scores && scores[a] < scores[b]
  }

  function Order(scores: Scores, ids: seq<Id>): seq<Id> {
    SortBy(ids, Behind(scores))
  }

  /** The place of `x`, counted from one. */
  function Place(order: seq<Id>, x: Id): (k: nat)
    requires x in order
    ensures 1 <= k <= |order| && order[k - 1] == x && x !in order[..k - 1]
  {
    if order[0] == x then 1 else 1 + Place(order[1..], x)
  }

  function Rank(scores: Scores, ids: seq<Id>, x: Id): nat
    requires x in ids
  {
    SortMembers(ids, Behind(scores), x);
    Place(Order(scores, ids), x)
  }

  /** Higher scores come first; equal ones stay in the order of the identifiers. */
  predicate Ahead(scores: Scores, a: Id, b: Id) {
    a in scores && b in scores && (scores[a] > scores[b] || (scores[a] == scores[b] && a.key < b.key))
  }

  predicate Ordered(scores: Scores, order: seq<Id>) {
    forall i, j | 0 <= i < j < |order| :: Ahead(scores, order[i], order[j])
  }

  lemma {:induction false} InsertOrdered(scores: Scores, x: Id, s: seq<Id>)
    requires Ordered(scores, s) && x in scores && forall y | y in s :: y in scores && y.key < x.key
    ensures Ordered(scores, Insert(x, s, Behind(scores)))
  {
    if s != [] {
      var front, last := s[..|s| - 1], s[|s| - 1];
      if scores[last] < scores[x] {
        InsertOrdered(scores, x, front);
        InsertMultiset(x, front, Behind(scores));
        var r := Insert(x, front, Behind(scores));
        forall y | y in r ensures Ahead(scores, y, last) {
          assert y in multiset(front) + multiset{x};
          assert y in front || y == x;
        }
      } else {
        forall k | 0 <= k < |s| ensures Ahead(scores, s[k], x) {
          assert s[k] in s && last in s;
          assert k < |s| - 1 ==> Ahead(scores, s[k], last);
        }
      }
    }
  }

  lemma {:induction false} SortOrdered(scores: Scores, ids: seq<Id>)
    requires forall i, j | 0 <= i < j < |ids| :: ids[i].key < ids[j].key
    requires forall x | x in ids :: x in scores
    ensures Ordered(scores, Order(scores, ids))
  {
    if ids != [] {
      var front, last := ids[..|ids| - 1], ids[|ids| - 1];
      SortOrdered(scores, front);
      forall y | y in Order(scores, front) ensures y in scores && y.key < last.key {
        SortMembers(front, Behind(scores), y);
        assert y in front;
      }
      InsertOrdered(scores, last, Order(scores, front));
    }
  }

  /** Ranks count from one in the order of falling scores, equal scores by identifier. */
  lemma RankIsOrder(scores: Scores, s: set<Id>, x: Id, y: Id)
    requires s <= scores.Keys && x in s && y in s && x != y
    ensures x in Listed(s) && y in Listed(s)
    ensures 1 <= Rank(scores, Listed(s), x) <= |s|
    ensures Rank(scores, Listed(s), x) < Rank(scores, Listed(s), y) <==> Ahead(scores, x, y)
  {
    ListedIs(s);
    var ids := Listed(s);
    SortOrdered(scores, ids);
    SortMembers(ids, Behind(scores), x);
    SortMembers(ids, Behind(scores), y);
    SortMultiset(ids, Behind(scores));
    var order := Order(scores, ids);
    var i, j := Place(order, x) - 1, Place(order, y) - 1;
    assert i < j ==> Ahead(scores, order[i], order[j]);
    assert j < i ==> Ahead(scores, order[j], order[i]);
  }

  // ----- the coefficient ------------------------------------------------------------------------

  function RankIn(scores: Scores, ids: seq<Id>): Id -> int {
    (x: Id) => if x in ids then Rank(scores, ids, x) else 0
  }

  /** (f + sign * g - c) squared; the squared difference for sign -1 and c 0. */
  function Square(f: Id -> int, g: Id -> int, c: int, sign: int): Id -> int {
    (x: Id) => (f(x) + sign * g(x) - c) * (f(x) + sign * g(x) - c)
  }

  function SquaredDifferences(a: Scores, b: Scores, ids: seq<Id>): int {
    SumOf(ids, Square(RankIn(a, ids), RankIn(b, ids), 0, -1))
  }

  function Coefficient(n: nat, squares: int): real
    requires n >= 3
  {
    NonZero(n);
    1.0 - (6 * squares) as real / (n * (n * n - 1)) as real
  }

  lemma NonZero(n: nat)
    requires n >= 3
    ensures n * (n * n - 1) >= 24
  {
    assert n * n >= 9;
    assert n * (n * n - 1) >= n * 8;
  }

  /** The value before it is rounded to three digits; `None` for fewer than three shared candidates. */
  function Spearman(a: Scores, b: Scores): Option<real> {
    var shared := a.Keys * b.Keys;
    if |shared| < 3 then None
    else Some(Coefficient(|shared|, SquaredDifferences(a, b, Listed(shared))))
  }

  // ----- sums over ranks ------------------------------------------------------------------------

  /** f(1) + ... + f(n). */
  function SumTo(n: nat, f: int -> int): int {
    if n == 0 then 0 else SumTo(n - 1, f) + f(n)
  }

  /** A sum over places of a sequence without repetitions is a sum over 1..n. */
  lemma {:induction false} SumOfPlaces(order: seq<Id>, n: nat, f: int -> int, g: Id -> int)
    requires n <= |order| && forall i, j | 0 <= i < j < |order| :: order[i] != order[j]
    requires forall x | x in order :: g(x) == f(Place(order, x))
    ensures SumOf(order[..n], g) == SumTo(n, f)
  {
    if n > 0 {
      SumOfPlaces(order, n - 1, f, g);
      assert order[..n][..n - 1] == order[..n - 1];
      assert Place(order, order[n - 1]) == n;
    }
  }

  /** Ranks run through 1..n exactly once, so any sum over them is known. */
  lemma SumOfRanks(scores: Scores, ids: seq<Id>, f: int -> int, g: Id -> int)
    requires forall i, j | 0 <= i < j < |ids| :: ids[i] != ids[j]
    requires forall x | x in ids :: g(x) == f(Rank(scores, ids, x))
    ensures SumOf(ids, g) == SumTo(|ids|, f)
  {
    var order := Order(scores, ids);
    SortMultiset(ids, Behind(scores));
    SortDistinct(ids, Behind(scores));
    SumPermuted(ids, order, g);
    forall x | x in order ensures x in ids && g(x) == f(Place(order, x)) {
      SortMembers(ids, Behind(scores), x);
    }
    SumOfPlaces(order, |order|, f, g);
    assert order[..|order|] == order;
  }

  lemma {:induction false} SumLinear(n: nat)
    ensures 2 * SumTo(n, (k: int) => k) == n * (n + 1)
  {
    if n > 0 {
      SumLinear(n - 1);
    }
  }

  lemma {:induction false} SumSquares(n: nat)
    ensures 6 * SumTo(n, (k: int) => k * k) == n * (n + 1) * (2 * n + 1)
  {
    if n > 0 {
      SumSquares(n - 1);
      NextSquare(n);
    }
  }

  lemma NextSquare(n: int)
    ensures (n - 1) * ((n - 1) + 1) * (2 * (n - 1) + 1) + 6 * (n * n) == n * (n + 1) * (2 * n + 1)
  {
    assert (n - 1) * n * (2 * n - 1) == n * ((n - 1) * (2 * n - 1));
    assert (n + 1) * (2 * n + 1) == (n - 1) * (2 * n - 1) + 6 * n;
  }

  // ----- bounds -----------------------------------------------------------------------------------

  function Times(f: Id -> int): Id -> int {
    (x: Id) => f(x) * f(x)
  }

  lemma SumLast(ids: seq<Id>, f: Id -> int)
    requires ids != []
    ensures SumOf(ids, f) == SumOf(ids[..|ids| - 1], f) + f(ids[|ids| - 1])
  {
  }

  /** One more term on both sides of `Complement`. */
  lemma ComplementStep(diffs: int, sums: int, ff: int, gg: int, linear: int, n: int, c: int, f: int, g: int)
    requires diffs + sums == 2 * ff + 2 * gg - 2 * (c * linear) + n * (c * c)
    ensures diffs + (f - g) * (f - g) + (sums + (f + g - c) * (f + g - c)) ==
      2 * (ff + f * f) + 2 * (gg + g * g) - 2 * (c * (linear + (f + g))) + (n + 1) * (c * c)
  {
    assert (f - g) * (f - g) + (f + g - c) * (f + g - c) == 2 * (f * f) + 2 * (g * g) - 2 * (c * (f + g)) + c * c;
    assert c * (linear + (f + g)) == c * linear + c * (f + g);
    assert (n + 1) * (c * c) == n * (c * c) + c * c;
  }

  /** Squared differences and squared sums complement each other. */
  lemma {:induction false} Complement(ids: seq<Id>, f: Id -> int, g: Id -> int, c: int)
    ensures SumOf(ids, Square(f, g, 0, -1)) + SumOf(ids, Square(f, g, c, 1)) ==
      2 * SumOf(ids, Times(f)) + 2 * SumOf(ids, Times(g)) - 2 * (c * (SumOf(ids, f) + SumOf(ids, g))) + |ids| * (c * c)
  {
    if ids != [] {
      hide SumOf;
      var front, x := ids[..|ids| - 1], ids[|ids| - 1];
      Complement(front, f, g, c);
      SumLast(ids, Square(f, g, 0, -1));
      SumLast(ids, Square(f, g, c, 1));
      SumLast(ids, Times(f));
      SumLast(ids, Times(g));
      SumLast(ids, f);
      SumLast(ids, g);
      SquareAt(f, g, c, x);
      hide Square, Times;
      ComplementStep(SumOf(front, Square(f, g, 0, -1)), SumOf(front, Square(f, g, c, 1)), SumOf(front, Times(f)),
                     SumOf(front, Times(g)), SumOf(front, f) + SumOf(front, g), |front|, c, f(x), g(x));
    }
  }

  lemma SquareAt(f: Id -> int, g: Id -> int, c: int, x: Id)
    ensures Square(f, g, 0, -1)(x) == (f(x) - g(x)) * (f(x) - g(x))
    ensures Square(f, g, c, 1)(x) == (f(x) + g(x) - c) * (f(x) + g(x) - c)
    ensures Times(f)(x) == f(x) * f(x) && Times(g)(x) == g(x) * g(x)
  {
  }

  /** A sum of squares is zero exactly when every term is. */
  lemma {:induction false} SumOfSquares(ids: seq<Id>, f: Id -> int, g: Id -> int, c: int, sign: int)
    ensures SumOf(ids, Square(f, g, c, sign)) >= 0
    ensures SumOf(ids, Square(f, g, c, sign)) == 0 <==> forall x | x in ids :: f(x) + sign * g(x) == c
  {
    if ids != [] {
      var front, x := ids[..|ids| - 1], ids[|ids| - 1];
      assert ids == front + [x];
      SumOfSquares(front, f, g, c, sign);
      hide SumOf;
      var term := f(x) + sign * g(x) - c;
      SumLast(ids, Square(f, g, c, sign));
      assert Square(f, g, c, sign)(x) == term * term;
      hide Square;
      SquareIsPositive(term);
    }
  }

  lemma SquareIsPositive(t: int)
    ensures t * t >= 0 && (t * t == 0 <==> t == 0)
  {
  }

  /** The polynomial left over once the sums of 1..n and of their squares are known. */
  lemma Closed(n: int, l: int, q: int, both: int)
    requires 2 * l == n * (n + 1) && 6 * q == n * (n + 1) * (2 * n + 1)
    requires both == 4 * q - 4 * ((n + 1) * l) + n * ((n + 1) * (n + 1))
    ensures 3 * both == n * (n * n - 1)
  {
    var m := n * (n + 1);
    assert 12 * q == 2 * (m * (2 * n + 1));
    assert 12 * ((n + 1) * l) == 6 * ((n + 1) * m) by {
      assert (n + 1) * (2 * l) == (n + 1) * m;
    }
    assert 3 * (n * ((n + 1) * (n + 1))) == 3 * (m * (n + 1));
    assert 3 * both == m * (2 * (2 * n + 1) - 6 * (n + 1) + 3 * (n + 1));
    assert m * (n - 1) == n * (n * n - 1);
  }

  /** The sums over any ranking of n candidates. */
  lemma RankSums(scores: Scores, ids: seq<Id>)
    requires forall i, j | 0 <= i < j < |ids| :: ids[i] != ids[j]
    ensures 2 * SumOf(ids, RankIn(scores, ids)) == |ids| * (|ids| + 1)
    ensures 6 * SumOf(ids, Times(RankIn(scores, ids))) == |ids| * (|ids| + 1) * (2 * |ids| + 1)
  {
    hide SumOf, Rank;
    SumOfRanks(scores, ids, (k: int) => k, RankIn(scores, ids));
    SumOfRanks(scores, ids, (k: int) => k * k, Times(RankIn(scores, ids)));
    SumLinear(|ids|);
    SumSquares(|ids|);
  }

  /** For any two rankings of the same n candidates, squared differences and squared mirror differences sum to
      n(n^2-1)/3. */
  lemma SquaresComplement(a: Scores, b: Scores, ids: seq<Id>)
    requires forall i, j | 0 <= i < j < |ids| :: ids[i] != ids[j]
    ensures var (f, g, n) := (RankIn(a, ids), RankIn(b, ids), |ids|);
      3 * (SumOf(ids, Square(f, g, 0, -1)) + SumOf(ids, Square(f, g, n + 1, 1))) == n * (n * n - 1)
  {
    hide SumOf, Rank, RankIn, Times, Square;
    var f, g, n := RankIn(a, ids), RankIn(b, ids), |ids|;
    Complement(ids, f, g, n + 1);
    RankSums(a, ids);
    RankSums(b, ids);
    SameThird(n, SumOf(ids, f), SumOf(ids, g), SumOf(ids, Times(f)), SumOf(ids, Times(g)),
              SumOf(ids, Square(f, g, 0, -1)) + SumOf(ids, Square(f, g, n + 1, 1)));
  }

  lemma SameThird(n: int, l: int, l2: int, q: int, q2: int, both: int)
    requires 2 * l == n * (n + 1) && 2 * l2 == n * (n + 1)
    requires 6 * q == n * (n + 1) * (2 * n + 1) && 6 * q2 == n * (n + 1) * (2 * n + 1)
    requires both == 2 * q + 2 * q2 - 2 * ((n + 1) * (l + l2)) + n * ((n + 1) * (n + 1))
    ensures 3 * both == n * (n * n - 1)
  {
    assert l == l2 && q == q2;
    assert (n + 1) * (l + l) == 2 * ((n + 1) * l);
    Closed(n, l, q, both);
  }

  lemma RanksFromSums(a: Scores, b: Scores, ids: seq<Id>)
    requires forall i, j | 0 <= i < j < |ids| :: ids[i] != ids[j]
    ensures var mirrored := SumOf(ids, Square(RankIn(a, ids), RankIn(b, ids), |ids| + 1, 1));
      && SquaredDifferences(a, b, ids) >= 0 && mirrored >= 0
      && 3 * (SquaredDifferences(a, b, ids) + mirrored) == |ids| * (|ids| * |ids| - 1)
      && (SquaredDifferences(a, b, ids) == 0 <==> forall x | x in ids :: Rank(a, ids, x) == Rank(b, ids, x))
      && (mirrored == 0 <==> forall x | x in ids :: Rank(a, ids, x) + Rank(b, ids, x) == |ids| + 1)
  {
    hide Rank, SumOf, Square;
    var f, g := RankIn(a, ids), RankIn(b, ids);
    SquaresComplement(a, b, ids);
    SumOfSquares(ids, f, g, 0, -1);
    SumOfSquares(ids, f, g, |ids| + 1, 1);
  }

  /** The coefficient lies between -1 and 1, is 1 exactly for equal rankings and -1 exactly for mirrored ones. */
  lemma SpearmanIsBounded(a: Scores, b: Scores)
    requires Spearman(a, b).Some?
    ensures -1.0 <= Spearman(a, b).value <= 1.0
    ensures var ids := Listed(a.Keys * b.Keys);
      Spearman(a, b).value == 1.0 <==> forall x | x in ids :: Rank(a, ids, x) == Rank(b, ids, x)
    ensures var ids := Listed(a.Keys * b.Keys);
      Spearman(a, b).value == -1.0 <==> forall x | x in ids :: Rank(a, ids, x) + Rank(b, ids, x) == |ids| + 1
  {
    hide Rank, SumOf, Square, RankIn, Listed, SquaredDifferences, Coefficient;
    var shared := a.Keys * b.Keys;
    var ids := Listed(shared);
    ListedIs(shared);
    RanksFromSums(a, b, ids);
    CoefficientRange(|shared|, SquaredDifferences(a, b, ids),
                     SumOf(ids, Square(RankIn(a, ids), RankIn(b, ids), |ids| + 1, 1)));
  }

  function Product(f: Id -> int, g: Id -> int): Id -> int {
    (x: Id) => f(x) * g(x)
  }

  /** The covariance of two maps over the candidates, times the square of their number. */
  function Covariance(ids: seq<Id>, f: Id -> int, g: Id -> int): int {
    |ids| * SumOf(ids, Product(f, g)) - SumOf(ids, f) * SumOf(ids, g)
  }

  lemma {:induction false} DifferencesExpand(ids: seq<Id>, f: Id -> int, g: Id -> int)
    ensures SumOf(ids, Square(f, g, 0, -1)) ==
      SumOf(ids, Product(f, f)) + SumOf(ids, Product(g, g)) - 2 * SumOf(ids, Product(f, g))
  {
    if ids != [] {
      hide SumOf;
      var front, x := ids[..|ids| - 1], ids[|ids| - 1];
      DifferencesExpand(front, f, g);
      SumLast(ids, Square(f, g, 0, -1));
      SumLast(ids, Product(f, f));
      SumLast(ids, Product(g, g));
      SumLast(ids, Product(f, g));
      assert (f(x) - g(x)) * (f(x) - g(x)) == f(x) * f(x) + g(x) * g(x) - 2 * (f(x) * g(x));
      assert Square(f, g, 0, -1)(x) == (f(x) - g(x)) * (f(x) - g(x));
    }
  }

  /** The coefficient is the Pearson correlation of the two rank maps: their covariance over their common variance. */
  lemma SpearmanIsPearson(a: Scores, b: Scores)
    requires Spearman(a, b).Some?
    ensures var ids := Listed(a.Keys * b.Keys); var f, g := RankIn(a, ids), RankIn(b, ids);
      && Covariance(ids, f, f) == Covariance(ids, g, g) > 0
      && Spearman(a, b).value * Covariance(ids, f, f) as real == Covariance(ids, f, g) as real
  {
    hide Rank, SumOf, Square, RankIn, Listed, Product, Times;
    var shared := a.Keys * b.Keys;
    var ids := Listed(shared);
    ListedIs(shared);
    var f, g := RankIn(a, ids), RankIn(b, ids);
    RankSums(a, ids);
    RankSums(b, ids);
    SquaresAreProducts(ids, f);
    SquaresAreProducts(ids, g);
    DifferencesExpand(ids, f, g);
    Correlates(|ids|, SumOf(ids, f), SumOf(ids, g), SumOf(ids, Product(f, f)), SumOf(ids, Product(g, g)),
               SumOf(ids, Product(f, g)), SquaredDifferences(a, b, ids));
  }

  lemma SquaresAreProducts(ids: seq<Id>, f: Id -> int)
    ensures SumOf(ids, Times(f)) == SumOf(ids, Product(f, f))
  {
  }

  lemma Correlates(n: nat, l: int, l2: int, q: int, q2: int, p: int, diffs: int)
    requires n >= 3 && 2 * l == n * (n + 1) && 2 * l2 == n * (n + 1)
    requires 6 * q == n * (n + 1) * (2 * n + 1) && 6 * q2 == n * (n + 1) * (2 * n + 1)
    requires diffs == q + q2 - 2 * p
    ensures n * q - l * l == n * q2 - l2 * l2 > 0
    ensures Coefficient(n, diffs) * (n * q - l * l) as real == (n * p - l * l2) as real
  {
    NonZero(n);
    var v, m := n * q - l * l, n * (n * n - 1);
    Variance(n, l, q);
    assert 2 * (n * p - l * l2) == 2 * v - n * diffs by {
      assert n * diffs == n * (q + q2) - 2 * (n * p);
    }
    Scales(n, v, m, diffs, n * p - l * l2);
  }

  lemma Variance(n: nat, l: int, q: int)
    requires n >= 3 && 2 * l == n * (n + 1) && 6 * q == n * (n + 1) * (2 * n + 1)
    ensures 12 * (n * q - l * l) == n * (n * (n * n - 1)) && n * q - l * l > 0
  {
    var m := n * (n + 1);
    assert 12 * (n * q) == 2 * (n * (m * (2 * n + 1)));
    assert 12 * (l * l) == 3 * (m * m) by {
      assert (2 * l) * (2 * l) == m * m;
    }
    assert m * m == n * (m * (n + 1));
    assert 2 * (n * (m * (2 * n + 1))) - 3 * (n * (m * (n + 1))) == n * (m * (n - 1));
    assert m * (n - 1) == n * (n * n - 1);
    NonZero(n);
  }

  lemma Scales(n: nat, v: int, m: int, diffs: int, cov: int)
    requires n >= 3 && m == n * (n * n - 1) && m > 0 && 12 * v == n * m && 2 * cov == 2 * v - n * diffs
    ensures Coefficient(n, diffs) * v as real == cov as real
  {
    var c, d := Coefficient(n, diffs), m as real;
    var x := (6 * diffs) as real / d;
    assert c == 1.0 - x && x * d == (6 * diffs) as real;
    assert 12.0 * v as real == n as real * d;
    assert 12.0 * (x * v as real) == x * (n as real * d) == n as real * (x * d);
    assert (n * diffs) as real == n as real * diffs as real;
    assert 12.0 * (c * v as real) == 12.0 * v as real - 12.0 * (x * v as real);
  }

  lemma Quotient(x: real, d: real)
    requires x >= 0.0 && d > 0.0
    ensures x / d >= 0.0 && (x / d == 0.0 <==> x == 0.0)
  {
  }

  lemma QuotientIs(z: real, y: real, d: real)
    requires d > 0.0 && z * d == y
    ensures y / d == z
  {
  }

  lemma CoefficientRange(n: nat, diffs: int, sums: int)
    requires n >= 3 && diffs >= 0 && sums >= 0 && 3 * (diffs + sums) == n * (n * n - 1)
    ensures -1.0 <= Coefficient(n, diffs) <= 1.0
    ensures Coefficient(n, diffs) == 1.0 <==> diffs == 0
    ensures Coefficient(n, diffs) == -1.0 <==> sums == 0
  {
    NonZero(n);
    var d := (n * (n * n - 1)) as real;
    var x, y := (6 * diffs) as real, (6 * sums) as real;
    assert x + y == 2.0 * d;
    Quotient(x, d);
    Quotient(y, d);
    var q := x / d;
    assert q * d == x;
    assert (2.0 - q) * d == 2.0 * d - q * d;
    QuotientIs(2.0 - q, y, d);
  }
}
