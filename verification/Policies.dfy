/**
 The two provider policies: worst-case reservations, admission caps, and the wire
 usage each provider contract accepts. The main results are that every accepted
 usage costs at most what was reserved for it, and that admission bounds the total.
 */
module Policies {
  import opened Wrappers
  import opened Decimals
  import opened TokenBudget

  const OPENAI_WINDOW: nat := 922_000
  const ANTHROPIC_WINDOW: nat := 1_000_000
  const OPENAI_SHORT_CONTEXT: nat := 272_000

  datatype Provider = OpenAI | Anthropic

  /** A validated policy keeps its provider's window and either all of the caps or none. */
  datatype Caps = Caps(maxCost: string, maxRequests: nat, maxTotalTokens: nat, maxOutput: nat)

  /** `caps` is absent exactly in tracking-only mode. */
  datatype Policy = Policy(provider: Provider, tariff: Tariff, caps: Option<Caps>)

  function Window(p: Policy): nat {
    if p.provider == OpenAI then OPENAI_WINDOW else ANTHROPIC_WINDOW
  }

  predicate ValidPolicy(p: Policy) {
    && ValidTariff(p.tariff)
    && (p.caps.Some? ==>
          && IsMoney(p.caps.value.maxCost) && Price(p.caps.value.maxCost) > 0.0
          && 1 <= p.caps.value.maxRequests <= 30_000
          && 1 <= p.caps.value.maxTotalTokens
          && 1 <= p.caps.value.maxOutput <= 32_768)
  }

  // ----- reservations ---------------------------------------------------------------------

  /** OpenAI: the full window at 2 * 1.25 the input price and output at 1.5. Anthropic: the full window twice. */
  function ReservationTotal(p: Policy, count: nat): Option<Decimal> {
    match p.caps
    case None => None
    case Some(caps) =>
      match p.provider
      case OpenAI => Some(TokenCost(p.tariff, count * OPENAI_WINDOW * 5, count * caps.maxOutput * 3, 2))
      case Anthropic => Some(TokenCost(p.tariff, count * ANTHROPIC_WINDOW * 2, count * caps.maxOutput, 1))
  }

  function ReservationCost(p: Policy): Option<Decimal> {
    ReservationTotal(p, 1)
  }

  /** What one attempt may cost at most, exactly. */
  function WorstCase(p: Policy): real
    requires p.caps.Some?
  {
    match p.provider
    case OpenAI => Cost(p.tariff, OPENAI_WINDOW * 5, p.caps.value.maxOutput * 3, 2)
    case Anthropic => Cost(p.tariff, ANTHROPIC_WINDOW * 2, p.caps.value.maxOutput, 1)
  }

  lemma CostScales(t: Tariff, i: nat, o: nat, denominator: nat, n: nat)
    requires denominator >= 1
    ensures Cost(t, n * i, n * o, denominator) == n as real * Cost(t, i, o, denominator)
  {
    hide Price;
    var a, b, d, m := Price(t.input), Price(t.output), (1000000 * denominator) as real, n as real;
    ProductAsReal(n, i);
    ProductAsReal(n, o);
    ScaleQuotient(a * i as real + b * o as real, d, m);
  }

  lemma ScaleQuotient(s: real, d: real, m: real)
    requires d > 0.0
    ensures (m * s) / d == m * (s / d)
  {
    assert (m * (s / d)) * d == m * ((s / d) * d);
  }

  lemma SameProduct(n: nat, a: nat, b: nat)
    ensures n * a * b == n * (a * b)
  {
  }

  /** Reserving `n` attempts costs exactly `n` times one reservation. */
  lemma ReservationIsLinear(p: Policy, n: nat)
    requires ValidPolicy(p) && p.caps.Some?
    ensures Value(ReservationTotal(p, n).value) == n as real * Value(ReservationCost(p).value)
    ensures Value(ReservationCost(p).value) == WorstCase(p)
  {
    hide TokenCost, Cost, Value, ValidTariff, IsMoney, Price;
    var out := p.caps.value.maxOutput;
    if p.provider == OpenAI {
      SameProduct(n, OPENAI_WINDOW, 5);
      SameProduct(n, out, 3);
      TokenCostExact(p.tariff, n * OPENAI_WINDOW * 5, n * out * 3, 2);
      TokenCostExact(p.tariff, OPENAI_WINDOW * 5, out * 3, 2);
      CostScales(p.tariff, OPENAI_WINDOW * 5, out * 3, 2, n);
    } else {
      SameProduct(n, ANTHROPIC_WINDOW, 2);
      TokenCostExact(p.tariff, n * ANTHROPIC_WINDOW * 2, n * out, 1);
      TokenCostExact(p.tariff, ANTHROPIC_WINDOW * 2, out, 1);
      CostScales(p.tariff, ANTHROPIC_WINDOW * 2, out, 1, n);
    }
  }

  // ----- admission --------------------------------------------------------------------------

  /** May the run hold `count` reservations? */
  predicate Admits(p: Policy, count: nat) {
    match p.caps
    case None => true
    case Some(caps) =>
      && count <= caps.maxRequests
      && count * (Window(p) + caps.maxOutput) <= caps.maxTotalTokens
      && Value(ReservationTotal(p, count).value) <= Price(caps.maxCost)
  }

  /** A capped run admits exactly as many reservations as its requests, tokens and worst cases leave room for. */
  lemma AdmitsExactly(p: Policy, count: nat)
    requires ValidPolicy(p)
    ensures Admits(p, count) <==>
      match p.caps
      case None => true
      case Some(caps) =>
        && count <= caps.maxRequests
        && count * ((if p.provider == OpenAI then 922_000 else 1_000_000) + caps.maxOutput) <= caps.maxTotalTokens
        && count as real * WorstCase(p) <= Price(caps.maxCost)
  {
    hide ReservationTotal, Value, Price, WorstCase;
    if p.caps.Some? {
      ReservationIsLinear(p, count);
    }
  }

  function Sum(costs: seq<real>): real {
    if costs == [] then 0.0 else Sum(costs[..|costs| - 1]) + costs[|costs| - 1]
  }

  lemma {:induction false} SumBound(costs: seq<real>, bound: real)
    requires forall i | 0 <= i < |costs| :: costs[i] <= bound
    ensures Sum(costs) <= |costs| as real * bound
  {
    if costs != [] {
      SumBound(costs[..|costs| - 1], bound);
      var n := |costs| - 1;
      Distribute(n as real, 1.0, bound);
    }
  }

  /** Admission bounds the true cumulative cost: as many attempts as were admitted, each within its worst case. */
  lemma AdmissionBoundsSpending(p: Policy, costs: seq<real>)
    requires ValidPolicy(p) && p.caps.Some? && Admits(p, |costs|)
    requires forall i | 0 <= i < |costs| :: costs[i] <= WorstCase(p)
    ensures Sum(costs) <= Price(p.caps.value.maxCost)
  {
    hide ReservationTotal, Value, Price, WorstCase, Sum;
    ReservationIsLinear(p, |costs|);
    SumBound(costs, WorstCase(p));
  }

  // ----- usage as reported by the wire ----------------------------------------------------------

  datatype DetailKey =
    | CachedTokens | CacheWriteTokens | ReasoningTokens | ThinkingTokens | FiveMinuteTokens | OneHourTokens
    | Other(name: int)

  /** A details object; a null member is absent here, as every check skips it. */
  type Details = map<DetailKey, int>

  datatype Error = InvalidUsage

  /** Every counter in range, and nothing but the allowed ones above zero. */
  predicate DetailsOk(details: Option<Details>, maximum: int, allowed: set<DetailKey>) {
    details.Some? ==>
      forall k | k in details.value :: 0 <= details.value[k] <= maximum && (k !in allowed ==> details.value[k] == 0)
  }

  datatype OpenAIUsage = OpenAIUsage(input: int, output: int, total: int, inputDetails: Option<Details>,
                                     outputDetails: Option<Details>)

  predicate WritesCache(u: OpenAIUsage) {
    u.inputDetails.Some? && CacheWriteTokens in u.inputDetails.value && u.inputDetails.value[CacheWriteTokens] != 0
  }

  /** The conservative estimate of an OpenAI usage; `Ok(None)` is an unknown cost. */
  function OpenAIEstimate(usage: Option<OpenAIUsage>, p: Policy): Result<Option<Decimal>, Error> {
    match usage
    case None => Ok(None)
    case Some(u) =>
      if u.input < 0 || u.output < 0 || u.total < 0 || u.total != u.input + u.output then Err(InvalidUsage)
      else if p.caps.Some? && (u.input > OPENAI_WINDOW || u.output > p.caps.value.maxOutput) then Err(InvalidUsage)
      else if !DetailsOk(u.inputDetails, u.input, {CachedTokens, CacheWriteTokens}) then Err(InvalidUsage)
      else if !DetailsOk(u.outputDetails, u.output, {ReasoningTokens}) then Err(InvalidUsage)
      else if WritesCache(u) then Ok(None)
      else if u.input > OPENAI_SHORT_CONTEXT then if p.caps.None? then Ok(None) else Err(InvalidUsage)
      else Ok(Some(TokenCost(p.tariff, u.input, u.output, 1)))
  }

  /** `otherCounters` are the remaining members; `standardService` says that region, tier and speed are the standard
      ones or absent. */
  datatype AnthropicUsage = AnthropicUsage(
    input: int, output: int, cacheWrite: int, cacheRead: int,
    outputDetails: Option<Details>, cacheCreation: Option<Details>, serverTools: Option<Details>,
    standardService: bool, otherCounters: Details)

  function DetailSum(d: Details, keys: seq<DetailKey>): int {
    if keys == [] then 0
    else DetailSum(d, keys[..|keys| - 1]) + (if keys[|keys| - 1] in d then d[keys[|keys| - 1]] else 0)
  }

  /** All members beyond the two durations are zero once `DetailsOk` holds, so the two carry the sum. */
  function CreationTotal(creation: Option<Details>): int {
    match creation
    case None => 0
    case Some(d) => DetailSum(d, [FiveMinuteTokens, OneHourTokens])
  }

  predicate Counter(value: int, maximum: int) {
    0 <= value <= maximum
  }

  function MaxOutput(p: Policy): nat {
    match p.caps
    case None => 128_000
    case Some(caps) => caps.maxOutput
  }

  /** The conservative estimate of an Anthropic usage: reads undiscounted, writes at twice the input price. */
  function AnthropicEstimate(usage: Option<AnthropicUsage>, p: Policy): Result<Option<Decimal>, Error> {
    match usage
    case None => Ok(None)
    case Some(u) =>
      if !(Counter(u.input, ANTHROPIC_WINDOW) && Counter(u.output, MaxOutput(p))
           && Counter(u.cacheWrite, ANTHROPIC_WINDOW) && Counter(u.cacheRead, ANTHROPIC_WINDOW)) then Err(InvalidUsage)
      else if u.input + u.cacheWrite + u.cacheRead > ANTHROPIC_WINDOW then Err(InvalidUsage)
      else if !DetailsOk(u.outputDetails, u.output, {ThinkingTokens}) then Err(InvalidUsage)
      else if !DetailsOk(u.cacheCreation, u.cacheWrite, {FiveMinuteTokens, OneHourTokens}) then Err(InvalidUsage)
      else if CreationTotal(u.cacheCreation) > u.cacheWrite then Err(InvalidUsage)
      else if !DetailsOk(u.serverTools, 0, {}) then Err(InvalidUsage)
      else if !u.standardService then Err(InvalidUsage)
      else if !DetailsOk(Some(u.otherCounters), 0, {}) then Err(InvalidUsage)
      else Ok(Some(TokenCost(p.tariff, u.input + 2 * u.cacheWrite + u.cacheRead, u.output, 1)))
  }

  datatype Usage = FromOpenAI(openai: Option<OpenAIUsage>) | FromAnthropic(anthropic: Option<AnthropicUsage>)

  /** The estimate a verified result of this policy carries. */
  function Estimate(usage: Usage, p: Policy): Result<Option<Decimal>, Error> {
    match usage
    case FromOpenAI(u) => if p.provider == OpenAI then OpenAIEstimate(u, p) else Err(InvalidUsage)
    case FromAnthropic(u) => if p.provider == Anthropic then AnthropicEstimate(u, p) else Err(InvalidUsage)
  }

  // ----- what a usage costs ------------------------------------------------------------------------

  /** An estimate is the real cost of the tokens as they are billed: nothing is rounded, cache reads are not discounted
      and cache writes count twice. */
  lemma EstimateIsExact(usage: Usage, p: Policy)
    requires ValidPolicy(p)
    ensures match Estimate(usage, p)
      case Ok(Some(e)) =>
        (match usage
         case FromOpenAI(Some(u)) => IsPriced(p, u.input, u.output, e)
         case FromAnthropic(Some(u)) => IsPriced(p, u.input + 2 * u.cacheWrite + u.cacheRead, u.output, e)
         case _ => false)
      case _ => true
  {
    hide TokenCost, IsMoney, DetailsOk, CreationTotal, Value, Price;
    match usage {
      case FromOpenAI(Some(u)) =>
        if u.input >= 0 && u.output >= 0 {
          TokenCostExact(p.tariff, u.input, u.output, 1);
        }
      case FromAnthropic(Some(u)) =>
        if u.input >= 0 && u.cacheWrite >= 0 && u.cacheRead >= 0 && u.output >= 0 {
          TokenCostExact(p.tariff, u.input + 2 * u.cacheWrite + u.cacheRead, u.output, 1);
        }
      case _ =>
    }
  }

  /** The amount is the price of so many tokens in and out, per million. */
  predicate IsPriced(p: Policy, input: int, output: int, e: Decimal) {
    Value(e) == (Price(p.tariff.input) * input as real + Price(p.tariff.output) * output as real) / 1000000.0
  }

  /** A counter of a details object; zero where it is absent. */
  function Held(details: Option<Details>, key: DetailKey): int {
    match details
    case None => 0
    case Some(d) => if key in d then d[key] else 0
  }

  /** What a provider may report: parts within their totals, totals within the policy's limits, and for OpenAI a long
      input only where nothing is capped or the cost is unknown anyway. */
  predicate Reportable(usage: Usage, p: Policy) {
    match usage
    case FromOpenAI(None) => p.provider == OpenAI
    case FromAnthropic(None) => p.provider == Anthropic
    case FromOpenAI(Some(u)) =>
      && p.provider == OpenAI && u.input >= 0 && u.output >= 0 && u.input + u.output == u.total
      && DetailsOk(u.inputDetails, u.input, {CachedTokens, CacheWriteTokens})
      && DetailsOk(u.outputDetails, u.output, {ReasoningTokens})
      && (p.caps.Some? ==>
            && u.input <= (if Held(u.inputDetails, CacheWriteTokens) != 0 then OPENAI_WINDOW else OPENAI_SHORT_CONTEXT)
            && u.output <= p.caps.value.maxOutput)
    case FromAnthropic(Some(u)) =>
      && p.provider == Anthropic && u.input >= 0 && u.cacheWrite >= 0 && u.cacheRead >= 0
      && u.input + u.cacheWrite + u.cacheRead <= ANTHROPIC_WINDOW
      && 0 <= u.output <= (match p.caps case None => 128_000 case Some(caps) => caps.maxOutput)
      && DetailsOk(u.outputDetails, u.output, {ThinkingTokens})
      && DetailsOk(u.cacheCreation, u.cacheWrite, {FiveMinuteTokens, OneHourTokens})
      && Held(u.cacheCreation, FiveMinuteTokens) + Held(u.cacheCreation, OneHourTokens) <= u.cacheWrite
      && DetailsOk(u.serverTools, 0, {}) && DetailsOk(Some(u.otherCounters), 0, {}) && u.standardService
  }

  /** Absent, or at OpenAI with cache writes, or with a long context in a run without caps. */
  predicate Unpriced(usage: Usage, p: Policy) {
    match usage
    case FromOpenAI(Some(u)) =>
      Held(u.inputDetails, CacheWriteTokens) != 0 || (p.caps.None? && u.input > OPENAI_SHORT_CONTEXT)
    case FromAnthropic(Some(_)) => false
    case _ => true
  }

  /** A usage is accepted exactly when it is reportable, and an accepted one has no estimate exactly when it is
      unpriced. */
  lemma AcceptedExactly(usage: Usage, p: Policy)
    ensures Estimate(usage, p).Ok? <==> Reportable(usage, p)
    ensures Estimate(usage, p) == Ok(None) <==> Reportable(usage, p) && Unpriced(usage, p)
  {
    hide TokenCost, DetailsOk;
    match usage {
      case FromAnthropic(Some(u)) => CreationIsHeld(u.cacheCreation);
      case _ =>
    }
  }

  lemma CreationIsHeld(creation: Option<Details>)
    ensures CreationTotal(creation) == Held(creation, FiveMinuteTokens) + Held(creation, OneHourTokens)
  {
    if creation.Some? {
      var one, two := [FiveMinuteTokens], [FiveMinuteTokens, OneHourTokens];
      assert one[..0] == [] && two[..1] == one;
      assert DetailSum(creation.value, one) == Held(creation, FiveMinuteTokens);
    }
  }

  // ----- every accepted usage is covered by its reservation ---------------------------------------

  lemma PriceNonNegative(s: string)
    ensures Price(s) >= 0.0
  {
  }

  /** More tokens at a higher multiple never cost less. */
  lemma CostDominates(t: Tariff, i: nat, o: nat, I: nat, O: nat, denominator: nat)
    requires denominator >= 1 && i * denominator <= I && o * denominator <= O
    ensures Cost(t, i, o, 1) <= Cost(t, I, O, denominator)
  {
    hide Price;
    var a, b, d := Price(t.input), Price(t.output), denominator as real;
    PriceNonNegative(t.input);
    PriceNonNegative(t.output);
    ProductAsReal(i, denominator);
    ProductAsReal(o, denominator);
    TermDominates(a, i as real, d, I as real);
    TermDominates(b, o as real, d, O as real);
    ProductAsReal(1000000, denominator);
    QuotientDominates(a * i as real + b * o as real, a * I as real + b * O as real, d, 1000000.0);
  }

  lemma TermDominates(a: real, i: real, d: real, I: real)
    requires a >= 0.0 && i * d <= I
    ensures (a * i) * d <= a * I
  {
    assert (a * i) * d == a * (i * d);
  }

  lemma QuotientDominates(s: real, S: real, d: real, m: real)
    requires d > 0.0 && m > 0.0 && s * d <= S
    ensures s / m <= S / (m * d)
  {
    var x, y := s / m, S / (m * d);
    assert x * m == s;
    assert y * (m * d) == S;
    Reorder(x, m, d);
  }

  /** Whatever usage a provider contract accepts costs at most the reservation of its attempt. */
  lemma UsageWithinReservation(usage: Usage, p: Policy)
    requires ValidPolicy(p) && p.caps.Some?
    requires Estimate(usage, p).Ok? && Estimate(usage, p).value.Some?
    ensures 0.0 <= Value(Estimate(usage, p).value.value) <= WorstCase(p)
    ensures WorstCase(p) == Value(ReservationCost(p).value)
  {
    hide ReservationTotal, Value, Price, TokenCost, Cost, IsMoney;
    ReservationIsLinear(p, 1);
    match usage {
      case FromOpenAI(u) => OpenAIWithinReservation(u.value, p);
      case FromAnthropic(u) => AnthropicWithinReservation(u.value, p);
    }
  }

  lemma OpenAIWithinReservation(u: OpenAIUsage, p: Policy)
    requires ValidPolicy(p) && p.caps.Some? && p.provider == OpenAI
    requires OpenAIEstimate(Some(u), p).Ok? && OpenAIEstimate(Some(u), p).value.Some?
    ensures 0.0 <= Value(OpenAIEstimate(Some(u), p).value.value) <= WorstCase(p)
  {
    hide Price, TokenCost, Cost, IsMoney, DetailsOk;
    TokenCostExact(p.tariff, u.input, u.output, 1);
    CostDominates(p.tariff, u.input, u.output, OPENAI_WINDOW * 5, p.caps.value.maxOutput * 3, 2);
  }

  lemma AnthropicWithinReservation(u: AnthropicUsage, p: Policy)
    requires ValidPolicy(p) && p.caps.Some? && p.provider == Anthropic
    requires AnthropicEstimate(Some(u), p).Ok? && AnthropicEstimate(Some(u), p).value.Some?
    ensures 0.0 <= Value(AnthropicEstimate(Some(u), p).value.value) <= WorstCase(p)
  {
    hide Price, TokenCost, Cost, IsMoney, DetailsOk, CreationTotal;
    var billed := u.input + 2 * u.cacheWrite + u.cacheRead;
    TokenCostExact(p.tariff, billed, u.output, 1);
    CostDominates(p.tariff, billed, u.output, ANTHROPIC_WINDOW * 2, p.caps.value.maxOutput, 1);
  }
}
