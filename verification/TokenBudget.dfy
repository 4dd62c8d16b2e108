/**
 Exact token prices. A cost is computed in a decimal context whose precision is
 derived from the lengths of the operands; the main result is that no step of it
 ever rounds.
 */
module TokenBudget {
  import opened Decimals

  // ----- money as written ---------------------------------------------------------------

  predicate IsDigit(c: char) {
    '0' <= c <= '9'
  }

  predicate AllDigits(s: string) {
    forall i | 0 <= i < |s| :: IsDigit(s[i])
  }

  /** Index of the decimal point, or the length when there is none. */
  function PointAt(s: string): (i: nat)
    ensures i <= |s|
    ensures i < |s| ==> s[i] == '.'
  {
    if s == "" || s[0] == '.' then 0 else 1 + PointAt(s[1..])
  }

  function Places(s: string): nat {
    var i := PointAt(s);
    if i == |s| then 0 else |s| - i - 1
  }

  function Numeral(s: string): string {
    var i := PointAt(s);
    if i == |s| then s else s[..i] + s[i + 1..]
  }

  /** A canonical integer part, then at most eight places. */
  predicate IsMoney(s: string) {
    var i := PointAt(s);
    && i >= 1 && AllDigits(s[..i]) && (i == 1 || s[0] != '0')
    && (i < |s| ==> AllDigits(s[i + 1..]) && 1 <= Places(s) <= 8)
  }

  function DigitValue(c: char): (v: nat)
    ensures v <= 9
  {
    if IsDigit(c) then (c - '0') as nat else 0
  }

  function Number(s: string): nat {
    if s == "" then 0 else 10 * Number(s[..|s| - 1]) + DigitValue(s[|s| - 1])
  }

  lemma {:induction false} NumberBound(s: string)
    ensures Number(s) < Pow10(|s|)
  {
    if s != "" {
      NumberBound(s[..|s| - 1]);
    }
  }

  function Parse(s: string): Decimal {
    Decimal(Number(Numeral(s)), 0 - Places(s))
  }

  function Price(s: string): real {
    Value(Parse(s))
  }

  lemma PriceBound(s: string)
    requires IsMoney(s)
    ensures Parse(s).coef < Pow10(|s|) && -8 <= Parse(s).exp <= 0 && |s| >= 1
  {
    NumberBound(Numeral(s));
    Pow10Monotone(|Numeral(s)|, |s|);
  }

  // ----- the cost of a number of tokens ---------------------------------------------------

  /** Prices per million input and output tokens. */
  datatype Tariff = Tariff(input: string, output: string)

  predicate ValidTariff(t: Tariff) {
    IsMoney(t.input) && IsMoney(t.output)
  }

  function Max(a: nat, b: nat): nat {
    if a >= b then a else b
  }

  function Precision(t: Tariff, i: nat, o: nat): (p: nat)
    ensures p >= 16
  {
    Max(|t.input|, |t.output|) + Max(Digits(i), Digits(o)) + 16
  }

  function TokenCost(t: Tariff, i: nat, o: nat, denominator: nat): Decimal
    requires denominator >= 1
  {
    var prec := Precision(t, i, o);
    Over(Plus(Times(Parse(t.input), i, prec), Times(Parse(t.output), o, prec), prec), 1000000 * denominator, prec)
  }

  /** The same amount over the reals, in which nothing can round. */
  function Cost(t: Tariff, i: nat, o: nat, denominator: nat): real
    requires denominator >= 1
  {
    (Price(t.input) * i as real + Price(t.output) * o as real) / (1000000 * denominator) as real
  }

  lemma BoundedProduct(a: nat, b: nat, x: nat, y: nat)
    requires a < x && b < y
    ensures a * b < x * y
  {
    assert a * b <= a * y;
    assert a * y < x * y;
  }

  /** A price times a count stays within the joint length of both numerals. */
  lemma ProductLength(s: string, n: nat, l: nat, c: nat)
    requires IsMoney(s) && |s| <= l && Digits(n) <= c
    ensures Parse(s).coef * n < Pow10(l + c)
  {
    hide Parse, IsMoney;
    PriceBound(s);
    DigitsBound(n);
    Pow10Add(|s|, Digits(n));
    BoundedProduct(Parse(s).coef, n, Pow10(|s|), Pow10(Digits(n)));
    Pow10Monotone(|s| + Digits(n), l + c);
  }

  lemma AlignedLength(x: Decimal, e: int, k: nat)
    requires x.coef < Pow10(k) && e <= x.exp && x.exp - e <= 8
    ensures AlignedTo(x, e) < Pow10(k + 8)
  {
    hide Pow10;
    var z := x.exp - e;
    BoundedProduct(x.coef, Pow10(z) - 1, Pow10(k), Pow10(z));
    Pow10Add(k, z);
    Pow10Monotone(k + z, k + 8);
    ProductBelow(x.coef, Pow10(k), Pow10(z));
  }

  lemma ProductBelow(a: nat, b: nat, z: nat)
    requires a < b && z >= 1
    ensures a * z < b * z
  {
  }

  /** A price times a count is not rounded, and keeps its value. */
  lemma ProductIsExact(s: string, n: nat, l: nat, c: nat, prec: nat)
    requires IsMoney(s) && |s| <= l && Digits(n) <= c && l + c + 9 <= prec
    ensures Times(Parse(s), n, prec) == Decimal(Parse(s).coef * n, Parse(s).exp)
    ensures Value(Times(Parse(s), n, prec)) == Price(s) * n as real
    ensures Times(Parse(s), n, prec).coef < Pow10(l + c) && -8 <= Times(Parse(s), n, prec).exp <= 0
  {
    hide Parse, IsMoney, Pow10, Value, Times, Digits;
    ProductLength(s, n, l, c);
    PriceBound(s);
    FitsBelow(Parse(s).coef * n, l + c);
    TimesExact(Parse(s), n, prec);
  }

  /** The two products, their aligned sum: each fits the precision, so none is rounded. */
  lemma SumIsExact(t: Tariff, i: nat, o: nat)
    requires ValidTariff(t)
    ensures var prec, x, y := Precision(t, i, o), Parse(t.input), Parse(t.output);
      && Times(x, i, prec) == Decimal(x.coef * i, x.exp) && Times(y, o, prec) == Decimal(y.coef * o, y.exp)
      && Value(Plus(Times(x, i, prec), Times(y, o, prec), prec)) ==
         Price(t.input) * i as real + Price(t.output) * o as real
      && Plus(Times(x, i, prec), Times(y, o, prec), prec).coef < Pow10(prec - 7)
  {
    hide Parse, IsMoney, Pow10, Value, AlignedTo, Times, Plus, Price, Digits;
    var l, c := Max(|t.input|, |t.output|), Max(Digits(i), Digits(o));
    var prec := Precision(t, i, o);
    ProductIsExact(t.input, i, l, c, prec);
    ProductIsExact(t.output, o, l, c, prec);
    var a, b := Times(Parse(t.input), i, prec), Times(Parse(t.output), o, prec);
    AlignedSumFits(a, b, l + c);
    PlusExact(a, b, prec);
  }

  lemma AlignedSumFits(a: Decimal, b: Decimal, k: nat)
    requires a.coef < Pow10(k) && b.coef < Pow10(k) && -8 <= a.exp <= 0 && -8 <= b.exp <= 0
    ensures var e := if a.exp <= b.exp then a.exp else b.exp;
      && AlignedTo(a, e) + AlignedTo(b, e) < Pow10(k + 9) && Digits(AlignedTo(a, e) + AlignedTo(b, e)) <= k + 9
  {
    var e := if a.exp <= b.exp then a.exp else b.exp;
    AlignedLength(a, e, k);
    AlignedLength(b, e, k);
    assert Pow10(k + 9) == 10 * Pow10(k + 8);
    FewDigits(AlignedTo(a, e) + AlignedTo(b, e), k + 9);
  }

  lemma Divisors()
    ensures 1000000 * 1 == Pow10(6) && 2000000 * 5 == Pow10(7)
  {
    Pow10Values();
  }

  lemma Pow10Values()
    ensures Pow10(3) == 1000 && Pow10(6) == 1000000 && Pow10(7) == 10000000
  {
    assert Pow10(3) == 10 * Pow10(2) == 100 * Pow10(1) == 1000 * Pow10(0);
    Pow10Add(3, 3);
    Pow10Add(6, 1);
    assert Pow10(1) == 10 * Pow10(0);
  }

  lemma FiveTimesFits(c: nat, k: nat)
    requires c < Pow10(k)
    ensures Digits(c) <= k + 1 && Digits(c * 5) <= k + 1
  {
    assert Pow10(k + 1) == 10 * Pow10(k);
    FewDigits(c, k + 1);
    FewDigits(c * 5, k + 1);
  }

  lemma FitsBelow(c: nat, k: nat)
    requires c < Pow10(k) && k >= 1
    ensures Digits(c) <= k
  {
    FewDigits(c, k);
  }

  /** The computed cost is exact, for the plain and for the halved price. */
  lemma TokenCostExact(t: Tariff, i: nat, o: nat, denominator: nat)
    requires ValidTariff(t) && (denominator == 1 || denominator == 2)
    ensures Value(TokenCost(t, i, o, denominator)) == Cost(t, i, o, denominator)
  {
    hide ValidTariff, Parse, Pow10, Value, Over, Times, Plus, Price, Digits;
    var prec, x, y := Precision(t, i, o), Parse(t.input), Parse(t.output);
    SumIsExact(t, i, o);
    var s := Plus(Times(x, i, prec), Times(y, o, prec), prec);
    Divisors();
    FitsBelow(s.coef, prec - 7);
    FiveTimesFits(s.coef, prec - 7);
    if denominator == 1 {
      OverExact(s, 1000000, 1, 6, prec);
    } else {
      OverExact(s, 2000000, 5, 7, prec);
    }
  }
}
