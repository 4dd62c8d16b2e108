/**
 What a run's own policy bounds, in every history: the attempts, their tokens, and the
 estimates of all their outcomes.
 */
module ProviderLimits {
  import opened Wrappers
  import opened Plans
  import opened LedgerTables
  import opened Campaign
  import opened Decimals
  import opened TokenBudget
  import opened Policies
  import opened ProviderRun
  import opened ProviderInvariant
  import opened ProviderChanges
  import opened ProviderWorld
  import opened ProviderMoney

  /** The attempts a run holds were admitted together. */
  predicate WithinPolicy(run: Run) {
    |run.db.attempts| == 0 || Admits(run.cfg.policy, |run.db.attempts|)
  }

  lemma StepWithinPolicy(run: Run, later: Run, drawn: set<Id>)
    requires WithinPolicy(run) && Changes(run, later, drawn) && |drawn| <= 1
    ensures WithinPolicy(later)
  {
    hide Admits, RowMoves, GrantedTo, Progress;
    var keys, more := run.db.attempts.Keys, later.db.attempts.Keys;
    assert |run.db.attempts| == |keys| && |later.db.attempts| == |more|;
    if more != keys {
      OneMore(keys, more, drawn);
    }
  }

  lemma OneMore(keys: set<Id>, more: set<Id>, drawn: set<Id>)
    requires keys <= more <= keys + drawn && |drawn| <= 1 && more != keys
    ensures |more| == |keys| + 1
  {
    var a :| a in more && a !in keys;
    AtMostOne(drawn, a);
    assert more == keys + {a};
  }

  lemma AtMostOne(s: set<Id>, a: Id)
    requires a in s && |s| <= 1
    ensures s == {a}
  {
    assert |s - {a}| == |s| - 1;
  }

  lemma EveryRunWithinPolicy(tracking: bool, hs: seq<Happening>, r: Id, run: Run)
    requires Has(History(tracking, hs), r, run)
    ensures WithinPolicy(run)
  {
    hide History, WithinPolicy, Changes, Flows, Keeps, FreshRun;
    ghost var P := (x: Run) => WithinPolicy(x);
    forall cfg: Config ensures P(FreshRun(cfg)) {
      FreshWithinPolicy(cfg);
    }
    forall x, auth, later, next, drawn: set<Id> |
      RunInv(x, auth) && RunInv(later, next) && Changes(x, later, drawn) && |drawn| <= 1 && P(x)
      ensures P(later)
    {
      StepWithinPolicy(x, later, drawn);
    }
    EveryRunIs(tracking, hs, r, run, P);
  }

  lemma FreshWithinPolicy(cfg: Config)
    ensures WithinPolicy(FreshRun(cfg))
  {
    hide Admits;
    FreshState(cfg.plan);
  }

  ghost function SpentBy(run: Run, s: set<Id>): real {
    if s == {} then 0.0
    else
      var a :| a in s;
      EstimateOf(run, a) + SpentBy(run, s - {a})
  }

  lemma {:induction false} SpentByBound(run: Run, s: set<Id>, bound: real)
    requires bound >= 0.0 && forall a | HasOutcome(run, a) :: EstimateOf(run, a) <= bound
    ensures SpentBy(run, s) <= |s| as real * bound
  {
    hide EstimateOf, HasOutcome;
    if s != {} {
      var a :| a in s && SpentBy(run, s) == EstimateOf(run, a) + SpentBy(run, s - {a});
      SpentByBound(run, s - {a}, bound);
      assert EstimateOf(run, a) <= bound by {
        NoOutcomeNoCost(run, a);
      }
      Distribute(|s - {a}| as real, 1.0, bound);
      assert |s| == |s - {a}| + 1;
    }
  }

  lemma NoOutcomeNoCost(run: Run, a: Id)
    ensures !HasOutcome(run, a) ==> EstimateOf(run, a) == 0.0
  {
  }

  /** Requests, reserved tokens and the estimated cost of all stored outcomes are within the run's own caps. */
  ghost predicate WithinCaps(run: Run) {
    (run.cfg.policy.caps.Some? && run.db.attempts != map[]) ==>
      (var caps, n := run.cfg.policy.caps.value, |run.db.attempts|;
       && n <= caps.maxRequests && n * (Window(run.cfg.policy) + caps.maxOutput) <= caps.maxTotalTokens
       && SpentBy(run, run.db.attempts.Keys) <= Price(caps.maxCost))
  }

  lemma PolicyGivesCaps(run: Run, auth: Authority)
    requires RunInv(run, auth) && Accounted(run) && WithinPolicy(run)
    ensures WithinCaps(run)
  {
    hide Keeps, Accounted, SpentBy, Price, Value, ReservationTotal;
    if run.cfg.policy.caps.Some? && run.db.attempts != map[] {
      RunCost(run, auth, run.cfg.policy.caps.value);
    }
  }

  /** Every run of every history stays within its own policy. */
  lemma RunStaysWithinPolicy(tracking: bool, hs: seq<Happening>, r: Id, run: Run)
    requires Has(History(tracking, hs), r, run)
    ensures WithinCaps(run)
  {
    hide WorldInv, History, WithinCaps, Keeps, WithinPolicy, Accounted;
    EveryHistoryIsSafe(tracking, hs);
    EveryRunIsAccounted(tracking, hs, r, run);
    EveryRunWithinPolicy(tracking, hs, r, run);
    RunsAreSafe(History(tracking, hs), r, run);
    PolicyGivesCaps(run, History(tracking, hs).auth);
  }

  lemma RunCost(run: Run, auth: Authority, caps: Caps)
    requires RunInv(run, auth) && Accounted(run) && run.cfg.policy.caps == Some(caps)
    requires Admits(run.cfg.policy, |run.db.attempts|)
    ensures SpentBy(run, run.db.attempts.Keys) <= Price(caps.maxCost)
  {
    hide Keeps, Accounted, EstimateOf, HasOutcome, Value, Price, ReservationTotal, WorstCase, ValidPolicy, CostPer;
    var p, n := run.cfg.policy, |run.db.attempts|;
    InvHealthy(run, auth);
    WorstCaseIsPositive(p);
    ReservationIsLinear(p, n);
    assert CostPer(p) == WorstCase(p) by { CostPerIs(p); }
    forall a | HasOutcome(run, a) ensures EstimateOf(run, a) <= WorstCase(p) {
      EstimateIsWithinWorstCase(run, auth, a);
    }
    SpentByBound(run, run.db.attempts.Keys, WorstCase(p));
    assert |run.db.attempts| == |run.db.attempts.Keys|;
  }

  lemma CostPerIs(p: Policy)
    requires ValidPolicy(p) && p.caps.Some?
    ensures CostPer(p) == WorstCase(p)
  {
    hide ValidPolicy, Value, WorstCase;
    ReservationIsLinear(p, 1);
  }

}
