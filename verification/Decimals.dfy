/**
 Decimal arithmetic at a fixed precision, after the General Decimal Arithmetic
 Specification that Python's `decimal` implements: a coefficient and an exponent,
 every operation rounding its result half-even to the context's digits. Only the
 non-negative finite numbers occur here.
 */
module Decimals {

  datatype Decimal = Decimal(coef: nat, exp: int)

  // ----- powers of ten and digit counts ------------------------------------------------

  function Pow10(k: nat): (p: nat)
    ensures p >= 1
  {
    if k == 0 then 1 else 10 * Pow10(k - 1)
  }

  lemma {:induction false} Pow10Add(a: nat, b: nat)
    ensures Pow10(a + b) == Pow10(a) * Pow10(b)
  {
    if a > 0 {
      Pow10Add(a - 1, b);
      assert 10 * (Pow10(a - 1) * Pow10(b)) == (10 * Pow10(a - 1)) * Pow10(b);
    }
  }

  lemma {:induction false} Pow10Monotone(a: nat, b: nat)
    requires a <= b
    ensures Pow10(a) <= Pow10(b)
  {
    if a < b {
      Pow10Monotone(a, b - 1);
    }
  }

  /** Length of the usual decimal numeral of `n`. */
  function Digits(n: nat): (k: nat)
    ensures k >= 1
  {
    if n < 10 then 1 else 1 + Digits(n / 10)
  }

  lemma {:induction false} DigitsBound(n: nat)
    ensures n < Pow10(Digits(n))
  {
    if n >= 10 {
      DigitsBound(n / 10);
    }
  }

  lemma {:induction false} FewDigits(n: nat, k: nat)
    requires k >= 1 && n < Pow10(k)
    ensures Digits(n) <= k
  {
    if n >= 10 {
      assert k > 1 by { assert Pow10(1) == 10 * Pow10(0); }
      FewDigits(n / 10, k - 1);
    }
  }

  /** A coefficient has at most `k` digits exactly when it is below ten to the `k`. */
  lemma DigitsExactly(n: nat, k: nat)
    requires k >= 1
    ensures Digits(n) <= k <==> n < Pow10(k)
  {
    DigitsBound(n);
    if Digits(n) <= k {
      Pow10Monotone(Digits(n), k);
    } else if n < Pow10(k) {
      FewDigits(n, k);
    }
  }

  function TenTo(e: int): (x: real)
    ensures x > 0.0
    decreases if e < 0 then -e else e
  {
    if e == 0 then 1.0
    else if e > 0 then 10.0 * TenTo(e - 1)
    else TenTo(e + 1) / 10.0
  }

  lemma TenToStep(e: int)
    ensures TenTo(e + 1) == 10.0 * TenTo(e)
  {
  }

  function Scaled(p: nat, t: real): real {
    p as real * t
  }

  lemma ScaledByTen(p: nat, t: real)
    ensures Scaled(10 * p, t) == 10.0 * Scaled(p, t) && Scaled(1, t) == t
  {
    ProductAsReal(10, p);
    Reorder(10.0, p as real, t);
  }

  lemma {:induction false} TenToShift(e: int, k: nat)
    ensures TenTo(e + k) == Scaled(Pow10(k), TenTo(e))
  {
    hide Scaled;
    ScaledByTen(if k == 0 then 0 else Pow10(k - 1), TenTo(e));
    if k > 0 {
      TenToShift(e, k - 1);
      hide TenTo;
      TenToStep(e + k - 1);
    }
  }

  /** The number a decimal denotes. */
  function Value(d: Decimal): real {
    d.coef as real * TenTo(d.exp)
  }

  lemma ValueNonNegative(d: Decimal)
    ensures Value(d) >= 0.0
  {
  }

  lemma ShiftedValue(c: nat, e: int, k: nat)
    ensures Value(Decimal(c * Pow10(k), e)) == Value(Decimal(c, e + k))
  {
    TenToShift(e, k);
    ProductAsReal(c, Pow10(k));
    Reorder(c as real, Pow10(k) as real, TenTo(e));
  }

  // ----- rounding and the operations -----------------------------------------------------

  /** `n / 10^k`, ties to the even neighbour. */
  function HalfEven(n: nat, k: nat): nat {
    var q, r := Quotient(n, Pow10(k)), Remainder(n, Pow10(k));
    if 2 * r > Pow10(k) || (2 * r == Pow10(k) && q % 2 == 1) then q + 1 else q
  }

  /** Round to `prec` digits. */
  function Fix(d: Decimal, prec: nat): Decimal
    requires prec >= 1
  {
    var digits := Digits(d.coef);
    if digits <= prec then d
    else
      var q := HalfEven(d.coef, digits - prec);
      if q == Pow10(prec) then Decimal(Pow10(prec - 1), d.exp + (digits - prec) + 1)
      else Decimal(q, d.exp + (digits - prec))
  }

  function Times(x: Decimal, n: nat, prec: nat): Decimal
    requires prec >= 1
  {
    Fix(Decimal(x.coef * n, x.exp), prec)
  }

  /** The coefficient of `x` written at the lower exponent `e`. */
  function AlignedTo(x: Decimal, e: int): nat
    requires e <= x.exp
  {
    x.coef * Pow10(x.exp - e)
  }

  function Plus(x: Decimal, y: Decimal, prec: nat): Decimal
    requires prec >= 1
  {
    var e := if x.exp <= y.exp then x.exp else y.exp;
    Fix(Decimal(AlignedTo(x, e) + AlignedTo(y, e), e), prec)
  }

  /** Drop trailing zeros until the exponent reaches `ideal`. */
  function Strip(c: nat, e: int, ideal: int): Decimal
    decreases ideal - e
  {
    if e < ideal && c % 10 == 0 then Strip(c / 10, e + 1, ideal) else Decimal(c, e)
  }

  /** Division by an integer: a quotient with more than `prec` digits, sticky when inexact, then one rounding. */
  function Over(x: Decimal, n: nat, prec: nat): Decimal
    requires prec >= 1 && n >= 1
  {
    if x.coef == 0 then Fix(Decimal(0, x.exp), prec)
    else
      var shift := Digits(n) - Digits(x.coef) + prec + 1;
      var num := if shift >= 0 then x.coef * Pow10(shift) else x.coef;
      var den := if shift >= 0 then n else n * Pow10(-shift);
      var q, r := Quotient(num, den), Remainder(num, den);
      if r != 0 then Fix(Decimal(if q % 5 == 0 then q + 1 else q, x.exp - shift), prec)
      else Fix(Strip(q, x.exp - shift, x.exp), prec)
  }

  function Quotient(num: nat, den: nat): nat
  {
    if den == 0 then 0 else num / den
  }

  function Remainder(num: nat, den: nat): nat
  {
    if den == 0 then 0 else num % den
  }

  lemma ProductAsReal(a: nat, b: nat)
    ensures (a * b) as real == a as real * b as real
  {
  }

  lemma SumAsReal(a: nat, b: nat)
    ensures (a + b) as real == a as real + b as real
  {
  }

  lemma Distribute(a: real, b: real, c: real)
    ensures (a + b) * c == a * c + b * c
  {
  }

  lemma Reorder(a: real, b: real, c: real)
    ensures (a * b) * c == a * (b * c) && (a * b) * c == (a * c) * b
  {
  }

  lemma Regroup(c: real, a: real, t: real, b: real)
    ensures ((c * a) * t) * b == c * ((b * a) * t)
  {
  }

  // ----- when the operations are exact -----------------------------------------------------

  lemma TimesExact(x: Decimal, n: nat, prec: nat)
    requires prec >= 1 && Digits(x.coef * n) <= prec
    ensures Times(x, n, prec) == Decimal(x.coef * n, x.exp)
    ensures Value(Times(x, n, prec)) == Value(x) * n as real
  {
    ProductAsReal(x.coef, n);
    Reorder(x.coef as real, n as real, TenTo(x.exp));
  }

  lemma AlignedValue(x: Decimal, e: int)
    requires e <= x.exp
    ensures Value(Decimal(AlignedTo(x, e), e)) == Value(x)
  {
    ShiftedValue(x.coef, e, x.exp - e);
  }

  lemma PlusExact(x: Decimal, y: Decimal, prec: nat)
    requires prec >= 1
    requires var e := if x.exp <= y.exp then x.exp else y.exp; Digits(AlignedTo(x, e) + AlignedTo(y, e)) <= prec
    ensures var e := if x.exp <= y.exp then x.exp else y.exp;
      Plus(x, y, prec) == Decimal(AlignedTo(x, e) + AlignedTo(y, e), e)
    ensures Value(Plus(x, y, prec)) == Value(x) + Value(y)
  {
    var e := if x.exp <= y.exp then x.exp else y.exp;
    hide TenTo, Pow10, Digits;
    AlignedValue(x, e);
    AlignedValue(y, e);
    SumAsReal(AlignedTo(x, e), AlignedTo(y, e));
    Distribute(AlignedTo(x, e) as real, AlignedTo(y, e) as real, TenTo(e));
    assert Plus(x, y, prec) == Decimal(AlignedTo(x, e) + AlignedTo(y, e), e);
  }

  lemma {:induction false} StripBounds(c: nat, e: int, ideal: int)
    ensures Strip(c, e, ideal).coef <= c
    ensures Value(Strip(c, e, ideal)) == Value(Decimal(c, e))
    decreases ideal - e
  {
    if e < ideal && c % 10 == 0 {
      StripBounds(c / 10, e + 1, ideal);
      assert Pow10(1) == 10 * Pow10(0);
      assert c == (c / 10) * Pow10(1);
      ShiftedValue(c / 10, e, 1);
    }
  }

  /** The zeros a quotient was extended by are stripped again. */
  lemma {:induction false} StripZeros(c: nat, e: int, k: nat, ideal: int)
    requires e + k <= ideal
    ensures Strip(c * Pow10(k), e, ideal) == Strip(c, e + k, ideal)
    decreases k
  {
    hide Pow10, Strip;
    if k == 0 {
      TenToNothing(c);
    } else {
      OneZero(c, k);
      StripOne(c * Pow10(k), e, ideal);
      StripZeros(c, e + 1, k - 1, ideal);
    }
  }

  lemma TenToNothing(c: nat)
    ensures c * Pow10(0) == c
  {
  }

  lemma StripOne(c: nat, e: int, ideal: int)
    requires e < ideal && c % 10 == 0
    ensures Strip(c, e, ideal) == Strip(c / 10, e + 1, ideal)
  {
  }

  lemma OneZero(c: nat, k: nat)
    requires k > 0
    ensures (c * Pow10(k)) % 10 == 0 && (c * Pow10(k)) / 10 == c * Pow10(k - 1)
  {
    var d := c * Pow10(k - 1);
    assert c * (10 * Pow10(k - 1)) == 10 * (c * Pow10(k - 1));
    assert (10 * d) % 10 == 0 && (10 * d) / 10 == d;
  }

  /** `n` divides a power of ten: `n * m == 10^j`. Then the quotient terminates and nothing is rounded. */
  lemma OverExact(x: Decimal, n: nat, m: nat, j: nat, prec: nat)
    requires n >= 1 && m >= 1 && n * m == Pow10(j) && prec >= 1
    requires Digits(x.coef * m) <= prec && Digits(x.coef) + j <= prec
    ensures Value(Over(x, n, prec)) * n as real == Value(x)
  {
    if x.coef == 0 {
      OverZero(x, n, prec);
    } else {
      OverNonzero(x, n, m, j, prec);
    }
  }

  lemma OverNonzero(x: Decimal, n: nat, m: nat, j: nat, prec: nat)
    requires n >= 1 && m >= 1 && n * m == Pow10(j) && prec >= 1 && x.coef != 0
    requires Digits(x.coef * m) <= prec && Digits(x.coef) + j <= prec
    ensures Value(Over(x, n, prec)) * n as real == Value(x)
  {
    hide Value, Over, Strip, Digits, Pow10, TenTo;
    OverTerminates(x, n, m, j, prec);
    StripBounds(x.coef * m, x.exp - j, x.exp);
    TerminatingValue(x, n, m, j);
  }

  lemma OverZero(x: Decimal, n: nat, prec: nat)
    requires n >= 1 && prec >= 1 && x.coef == 0
    ensures Value(Over(x, n, prec)) * n as real == Value(x)
  {
    hide TenTo, Pow10;
  }

  lemma OverTerminates(x: Decimal, n: nat, m: nat, j: nat, prec: nat)
    requires n >= 1 && m >= 1 && n * m == Pow10(j) && prec >= 1 && x.coef != 0
    requires Digits(x.coef * m) <= prec && Digits(x.coef) + j <= prec
    ensures Over(x, n, prec) == Strip(x.coef * m, x.exp - j, x.exp)
  {
    hide Strip, Digits, Pow10;
    var shift := Digits(n) - Digits(x.coef) + prec + 1;
    var k := shift - j;
    var q := x.coef * m * Pow10(k);
    Pow10Add(j, k);
    ExactQuotient(x.coef, n, m, Pow10(j), Pow10(k));
    assert x.coef * Pow10(shift) == q * n;
    ExactDivision(q, n);
    StripZeros(x.coef * m, x.exp - shift, k, x.exp);
    StripBounds(x.coef * m, x.exp - j, x.exp);
    SmallerHasFewerDigits(Strip(x.coef * m, x.exp - j, x.exp).coef, x.coef * m);
  }

  lemma SmallerHasFewerDigits(a: nat, b: nat)
    requires a <= b
    ensures Digits(a) <= Digits(b)
  {
    DigitsBound(b);
    FewDigits(a, Digits(b));
  }

  lemma ExactQuotient(c: nat, n: nat, m: nat, p: nat, z: nat)
    requires n * m == p
    ensures c * (p * z) == (c * m * z) * n
  {
    assert c * (p * z) == c * ((n * m) * z);
    assert c * ((n * m) * z) == (c * m * z) * n;
  }

  lemma ExactDivision(q: nat, n: nat)
    requires n >= 1
    ensures (q * n) / n == q && (q * n) % n == 0
  {
    var d, r := (q * n) / n, (q * n) % n;
    assert q * n == d * n + r;
    assert (q - d) * n == r;
    ProductAtLeast(q - d, n);
  }

  lemma ProductAtLeast(x: int, n: int)
    requires n >= 1
    ensures x >= 1 ==> x * n >= n
    ensures x <= -1 ==> x * n <= -n
  {
  }

  lemma TerminatingValue(x: Decimal, n: nat, m: nat, j: nat)
    requires n * m == Pow10(j)
    ensures Value(Decimal(x.coef * m, x.exp - j)) * n as real == Value(x)
  {
    hide TenTo, Pow10;
    TenToShift(x.exp - j, j);
    var t, c, a, b := TenTo(x.exp - j), x.coef as real, m as real, n as real;
    ProductAsReal(x.coef, m);
    ProductAsReal(n, m);
    Regroup(c, a, t, b);
  }
}
