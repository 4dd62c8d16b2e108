/**
 The shared spending authority: integer units of 1e-14 USD under one ceiling, one
 immutable reservation per attempt, never released.
 */
module Campaign {
  import opened Wrappers
  import opened Plans
  import opened LedgerTables
  import opened Decimals

  const SCALE: int := 100_000_000_000_000
  const CEILING: int := 50 * SCALE

  // ----- exact amounts in integer units -----------------------------------------------

  /** Ceiling division: whole units covering `numerator / denominator` dollars. */
  function Units(numerator: int, denominator: int): int
    requires denominator > 0
  {
    (numerator * SCALE + denominator - 1) / denominator
  }

  function Exact(numerator: int, denominator: int): real
    requires denominator > 0
  {
    numerator as real / denominator as real
  }

  lemma QuotientCovers(n: int, d: int, u: int)
    requires d > 0 && u == (n + d - 1) / d
    ensures u * d >= n && (u - 1) * d < n
  {
    assert n + d - 1 == u * d + (n + d - 1) % d;
  }

  lemma ScaledComparison(n: int, d: int, k: int)
    requires d > 0
    ensures k as real >= Exact(n, d) * SCALE as real <==> k * d >= n * SCALE
  {
    var x, s, dr := Exact(n, d), SCALE as real, d as real;
    assert x * dr == n as real;
    assert (x * s) * dr == n as real * s;
    assert (n * SCALE) as real == n as real * s;
    assert (k * d) as real == k as real * dr;
    if k as real >= x * s {
      assert k as real * dr >= (x * s) * dr;
    }
    if k as real < x * s {
      assert k as real * dr < (x * s) * dr;
    }
  }

  /** The units of an amount are the least integer covering its exact value. */
  lemma UnitsAreLeastCover(n: int, d: int, k: int)
    requires d > 0
    ensures Units(n, d) as real >= Exact(n, d) * SCALE as real
    ensures k as real >= Exact(n, d) * SCALE as real ==> k >= Units(n, d)
  {
    var u := Units(n, d);
    QuotientCovers(n * SCALE, d, u);
    ScaledComparison(n, d, u);
    ScaledComparison(n, d, k);
  }

  /** Two fractions of the same value take the same units. */
  lemma UnitsDependOnValue(n: int, d: int, m: int, e: int)
    requires d > 0 && e > 0 && Exact(n, d) == Exact(m, e)
    ensures Units(n, d) == Units(m, e)
  {
    UnitsAreLeastCover(n, d, Units(m, e));
    UnitsAreLeastCover(m, e, Units(n, d));
  }

  /** A quote the campaign accepts: positive, at most fifty dollars, with a bounded numeral. */
  predicate ValidAmount(amount: Decimal) {
    && 0.0 < Value(amount) <= 50.0
    && Digits(amount.coef) <= 100
    && -100 <= amount.exp <= 2
  }

  /** An amount as a fraction of integers; by `UnitsDependOnValue` it need not be in lowest terms. */
  function Ratio(amount: Decimal): (r: (int, int))
    ensures r.1 > 0
  {
    if amount.exp >= 0 then (amount.coef * Pow10(amount.exp), 1) else (amount.coef, Pow10(-amount.exp))
  }

  lemma RatioIsExact(amount: Decimal)
    ensures Exact(Ratio(amount).0, Ratio(amount).1) == Value(amount)
  {
    if amount.exp >= 0 {
      TenToShift(0, amount.exp);
      assert TenTo(amount.exp) == Pow10(amount.exp) as real;
      hide TenTo, Pow10, Scaled;
      ProductAsReal(amount.coef, Pow10(amount.exp));
    } else {
      TenToShift(amount.exp, -amount.exp);
      assert Pow10(-amount.exp) as real * TenTo(amount.exp) == 1.0;
      hide TenTo, Pow10, Scaled;
      DivideOut(amount.coef as real, Pow10(-amount.exp) as real, TenTo(amount.exp));
    }
  }

  lemma DivideOut(c: real, p: real, t: real)
    requires p > 0.0 && p * t == 1.0
    ensures c / p == c * t
  {
    assert (c * t) * p == c * (p * t);
  }

  function AmountUnits(amount: Decimal): int {
    Units(Ratio(amount).0, Ratio(amount).1)
  }

  /** So many units are worth at least `x` dollars. */
  predicate Covers(units: int, x: real) {
    units as real >= x * SCALE as real
  }

  /** The fewest units that are. */
  ghost predicate LeastCover(units: int, x: real) {
    Covers(units, x) && forall k | Covers(k, x) :: units <= k
  }

  /** An accepted quote takes the fewest units that cover it; they are positive and within the ceiling. */
  lemma AmountUnitsCover(amount: Decimal)
    requires ValidAmount(amount)
    ensures 0 < AmountUnits(amount) <= CEILING && LeastCover(AmountUnits(amount), Value(amount))
  {
    var (n, d) := Ratio(amount);
    RatioIsExact(amount);
    UnitsAreLeastCover(n, d, CEILING);
    assert CEILING as real >= Value(amount) * SCALE as real;
    forall k | Covers(k, Value(amount)) ensures AmountUnits(amount) <= k {
      UnitsAreLeastCover(n, d, k);
    }
  }

  // ----- the authority ------------------------------------------------------------------

  /** Everything a reservation is bound to; hashing it is modelled as keeping it. */
  datatype Binding = Binding(
    attempt: Id, run: Digest, request: Digest, config: Digest, provider: Id, amount: Option<real>)

  /** `units` is absent in a tracking-only campaign. */
  datatype Reservation = Reservation(binding: Binding, units: Option<int>)

  type Reservations = map<Id, Reservation>

  datatype Authority = Authority(tracking: bool, reservations: Reservations)

  /** What a run asks for. */
  datatype Claim = Claim(
    attempt: Id, run: Digest, request: Digest, config: Digest, provider: Id, currencyIsUsd: bool,
    upperBound: Option<Decimal>)

  datatype Error =
    | CampaignCurrency | TrackingRequiresNoReservation | InvalidUpperBound | BindingMismatch | Exhausted | GuardAborted

  function UnitsOf(r: Reservation): int {
    match r.units
    case None => 0
    case Some(u) => u
  }

  ghost function Total(m: Reservations): int
    decreases |m|
  {
    if m == map[] then 0
    else
      var a :| a in m;
      UnitsOf(m[a]) + Total(m - {a})
  }

  lemma {:induction false} TotalSplit(m: Reservations, a: Id)
    requires a in m
    ensures Total(m) == UnitsOf(m[a]) + Total(m - {a})
    decreases |m|
  {
    var b :| b in m && Total(m) == UnitsOf(m[b]) + Total(m - {b});
    if a != b {
      TotalSplit(m - {b}, a);
      TotalSplit(m - {a}, b);
      assert m - {a} - {b} == m - {b} - {a};
    }
  }

  lemma TotalInsert(m: Reservations, a: Id, r: Reservation)
    requires a !in m
    ensures Total(m[a := r]) == Total(m) + UnitsOf(r)
  {
    TotalSplit(m[a := r], a);
    assert m[a := r] - {a} == m;
  }

  /** The reservation a claim asks for; hashing aside, exactly the claim. */
  function Asked(c: Authority, claim: Claim): Result<Reservation, Error> {
    if !claim.currencyIsUsd then Err(CampaignCurrency)
    else if c.tracking then
      if claim.upperBound.Some? then Err(TrackingRequiresNoReservation)
      else Ok(Reservation(Binding(claim.attempt, claim.run, claim.request, claim.config, claim.provider, None), None))
    else
      match claim.upperBound
      case None => Err(InvalidUpperBound)
      case Some(x) =>
        if !ValidAmount(x) then Err(InvalidUpperBound)
        else Ok(Reservation(
          Binding(claim.attempt, claim.run, claim.request, claim.config, claim.provider, Some(Value(x))),
          Some(AmountUnits(x))))
  }

  /** The reservations trigger and row check. */
  ghost predicate Guard(c: Authority, a: Id, r: Reservation) {
    && a !in c.reservations
    && (if c.tracking then r.units.None? else r.units.Some? && 0 < r.units.value <= CEILING)
    && (!c.tracking ==> UnitsOf(r) + Total(c.reservations) <= CEILING)
  }

  /** One admission; a repeated identical claim is granted again without any change. */
  ghost function Admission(c: Authority, claim: Claim): Result<Authority, Error> {
    match Asked(c, claim)
    case Err(e) => Err(e)
    case Ok(r) =>
      if claim.attempt in c.reservations then
        if c.reservations[claim.attempt].binding == r.binding then Ok(c) else Err(BindingMismatch)
      else if !c.tracking && Total(c.reservations) + UnitsOf(r) > CEILING then Err(Exhausted)
      else if !Guard(c, claim.attempt, r) then Err(GuardAborted)
      else Ok(c.(reservations := c.reservations[claim.attempt := r]))
  }

  ghost function After(c: Authority, claim: Claim): Authority {
    match Admission(c, claim)
    case Ok(next) => next
    case Err(_) => c
  }

  /** Any interleaving of claims from any number of processes. */
  ghost function Admit(c: Authority, claims: seq<Claim>): Authority {
    if claims == [] then c else After(Admit(c, claims[..|claims| - 1]), claims[|claims| - 1])
  }

  /** Under the ceiling, with every row charged exactly what its own binding asks for. */
  ghost predicate Sound(c: Authority) {
    && (!c.tracking ==> 0 <= Total(c.reservations) <= CEILING)
    && (forall a | a in c.reservations :: RowSound(c, a))
  }

  ghost predicate RowSound(c: Authority, a: Id)
    requires a in c.reservations
  {
    var r := c.reservations[a];
    && r.binding.attempt == a
    && (c.tracking ==> r.units.None? && r.binding.amount.None?)
    && (!c.tracking ==> r.units.Some? && r.binding.amount.Some? && 0 < r.units.value <= CEILING)
    && (!c.tracking ==> LeastCover(r.units.value, r.binding.amount.value))
  }

  lemma AskedIsSound(c: Authority, claim: Claim)
    requires Asked(c, claim).Ok?
    ensures var r := Asked(c, claim).value;
      RowSound(c.(reservations := map[claim.attempt := r]), claim.attempt)
  {
    if !c.tracking {
      AmountUnitsCover(claim.upperBound.value);
    }
  }

  /** The trigger never refuses what the admission check lets through. */
  lemma AdmissionAgrees(c: Authority, claim: Claim)
    requires Sound(c)
    ensures Admission(c, claim) != Err(GuardAborted)
    ensures var next := After(c, claim);
      && Sound(next) && next.tracking == c.tracking
      && (forall a | a in c.reservations :: a in next.reservations && next.reservations[a] == c.reservations[a])
    ensures Admission(c, claim).Ok? ==> Granted(After(c, claim), claim)
  {
    if Asked(c, claim).Ok? {
      var r := Asked(c, claim).value;
      AskedIsSound(c, claim);
      if claim.attempt !in c.reservations {
        TotalInsert(c.reservations, claim.attempt, r);
      }
    }
  }

  /** The authority holds exactly the reservation the claim asks for. */
  ghost predicate Granted(c: Authority, claim: Claim) {
    && Asked(c, claim).Ok? && claim.attempt in c.reservations
    && c.reservations[claim.attempt].binding == Asked(c, claim).value.binding
  }

  /** Whatever claims arrive: the ceiling holds and granted reservations never change or vanish. */
  lemma {:induction false} CeilingAlwaysHolds(c: Authority, claims: seq<Claim>)
    requires Sound(c)
    ensures var later := Admit(c, claims);
      && Sound(later) && later.tracking == c.tracking
      && (forall a | a in c.reservations :: a in later.reservations && later.reservations[a] == c.reservations[a])
  {
    if claims != [] {
      CeilingAlwaysHolds(c, claims[..|claims| - 1]);
      AdmissionAgrees(Admit(c, claims[..|claims| - 1]), claims[|claims| - 1]);
    }
  }

  /** What a new attempt is refused for, told from its claim alone. */
  ghost predicate Affordable(c: Authority, claim: Claim) {
    && claim.currencyIsUsd
    && match claim.upperBound
       case None => c.tracking
       case Some(x) =>
         && !c.tracking && 0.0 < Value(x) <= 50.0 && Digits(x.coef) <= 100 && -100 <= x.exp <= 2
         && exists units :: LeastCover(units, Value(x)) && Total(c.reservations) + units <= CEILING
  }

  /** The row a granted claim holds: bound to every field of the claim, for the fewest units that cover the quote. */
  ghost predicate HeldFor(claim: Claim, r: Reservation) {
    && r.binding.attempt == claim.attempt && r.binding.run == claim.run && r.binding.request == claim.request
    && r.binding.config == claim.config && r.binding.provider == claim.provider
    && match claim.upperBound
       case None => r.binding.amount.None? && r.units.None?
       case Some(x) => r.binding.amount == Some(Value(x)) && r.units.Some? && LeastCover(r.units.value, Value(x))
  }

  /** A new attempt is admitted exactly when its quote fits under the ceiling; the total then grows by exactly the
      fewest units that cover it. */
  lemma AdmissionIsExact(c: Authority, claim: Claim)
    requires Sound(c) && claim.attempt !in c.reservations
    ensures Admission(c, claim).Ok? <==> Affordable(c, claim)
    ensures Admission(c, claim).Ok? ==> exists r: Reservation ::
      && HeldFor(claim, r) && After(c, claim) == c.(reservations := c.reservations[claim.attempt := r])
      && Total(After(c, claim).reservations) == Total(c.reservations) + UnitsOf(r)
  {
    hide AmountUnits, LeastCover, RowSound, Value, Digits;
    AdmissionAgrees(c, claim);
    match claim.upperBound {
      case None =>
      case Some(x) =>
        if ValidAmount(x) {
          AmountUnitsCover(x);
          forall units | LeastCover(units, Value(x)) ensures units == AmountUnits(x) {
            LeastIsUnique(units, AmountUnits(x), Value(x));
          }
        }
    }
    if Asked(c, claim).Ok? {
      var r := Asked(c, claim).value;
      TotalInsert(c.reservations, claim.attempt, r);
      assert HeldFor(claim, r);
    }
  }

  lemma LeastIsUnique(units: int, others: int, x: real)
    requires LeastCover(units, x) && LeastCover(others, x)
    ensures units == others
  {
  }

  /** The claims ask for the same: all fields agree, and the quotes have the same value. */
  predicate SameClaim(claim: Claim, other: Claim) {
    && other.attempt == claim.attempt && other.run == claim.run && other.request == claim.request
    && other.config == claim.config && other.provider == claim.provider && other.currencyIsUsd
    && match (claim.upperBound, other.upperBound)
       case (None, None) => true
       case (Some(x), Some(y)) => ValidAmount(y) && Value(x) == Value(y)
       case _ => false
  }

  /** Once granted, the identical claim is granted again after anything else, exhausted or not, and changes nothing;
      a claim of the same attempt is granted again exactly when it asks for the same, and no other changes anything. */
  lemma RepetitionIsFree(c: Authority, claim: Claim, claims: seq<Claim>, other: Claim)
    requires Sound(c) && Granted(c, claim) && other.attempt == claim.attempt
    ensures var later := Admit(c, claims);
      && Admission(later, claim) == Ok(later)
      && After(later, other) == later
      && (Admission(later, other).Ok? <==> SameClaim(claim, other))
  {
    CeilingAlwaysHolds(c, claims);
    assert Asked(Admit(c, claims), other) == Asked(c, other);
    assert Asked(Admit(c, claims), claim) == Asked(c, claim);
  }

  // ----- the object ---------------------------------------------------------------------

  class CampaignBudget {
    const tracking: bool
    var reservations: Reservations

    function View(): Authority
      reads this
    {
      Authority(tracking, reservations)
    }

    ghost predicate Valid()
      reads this
    {
      Sound(View())
    }

    constructor (trackingOnly: bool)
      ensures Valid() && View() == Authority(trackingOnly, map[])
    {
      tracking := trackingOnly;
      reservations := map[];
    }

    /** The sum the database computes over all rows. */
    method ReservedTotal() returns (total: int)
      ensures total == Total(reservations)
    {
      total := 0;
      var rest := reservations;
      while rest != map[]
        invariant total + Total(rest) == Total(reservations)
        decreases |rest|
      {
        var a :| a in rest;
        TotalSplit(rest, a);
        total := total + UnitsOf(rest[a]);
        rest := rest - {a};
      }
    }

    /** Admission of one attempt; succeeds exactly when it is new and affordable, or granted before with the same
        binding. */
    method Reserve(claim: Claim) returns (r: Result<Id, Error>)
      requires Valid()
      modifies this`reservations
      ensures Valid()
      ensures match old(Admission(View(), claim))
        case Ok(next) => r == Ok(claim.attempt) && View() == next
        case Err(e) => r == Err(e) && View() == old(View())
    {
      AdmissionAgrees(View(), claim);
      var asked := Asked(View(), claim);
      if asked.Err? {
        return Err(asked.error);
      }
      if claim.attempt in reservations {
        if reservations[claim.attempt].binding != asked.value.binding {
          return Err(BindingMismatch);
        }
        return Ok(claim.attempt);
      }
      if !tracking {
        var total := ReservedTotal();
        if total + UnitsOf(asked.value) > CEILING {
          return Err(Exhausted);
        }
      }
      reservations := reservations[claim.attempt := asked.value];
      return Ok(claim.attempt);
    }
  }
}
