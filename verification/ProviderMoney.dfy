/**
 The money, end to end. Every stored outcome that carries an estimate belongs to one
 attempt, and no attempt has two of them, however often it was interrupted, retried or
 restored; so the estimates sum to at most what was reserved, and that is at most the
 ceiling.
 */
module ProviderMoney {
  import opened Wrappers
  import opened Plans
  import opened LedgerTables
  import opened LedgerOps
  import opened LedgerMoves
  import opened LedgerRuns
  import opened Campaign
  import Decimals
  import opened Policies
  import opened ProviderRun
  import opened ProviderInvariant
  import opened ProviderChanges
  import opened ProviderSafety
  import opened ProviderWorld

  // ----- one outcome with an estimate per attempt -----------------------------------------------

  /** An outcome that carries an estimate: an uncertain one never does. */
  predicate Known(blob: Blob) {
    blob.ResultBlob? && blob.result.status != CallUncertain
  }

  predicate KnownAt(run: Run, d: Digest) {
    d in run.objects && Known(run.objects[d])
  }

  /** The stored object is such an outcome of the attempt's request. */
  predicate Priced(run: Run, d: Digest, a: Id) {
    KnownAt(run, d) && a in run.db.attempts && run.objects[d].result.request == RequestOf(run.db, a)
  }

  /** The process is not about to get an outcome of the attempt, and the one it carries is this one. */
  predicate CarriesOnly(cfg: Config, pc: Pc, d: Digest, a: Id) {
    match pc
    case Launched(_, b) => b != a
    case Answered(_, b, _) => b != a
    case Stored(_, b, result) => b == a ==> cfg.hash(ResultBlob(result)) == d
    case Opened(_, b, result) => b == a ==> cfg.hash(ResultBlob(result)) == d
    case _ => true
  }

  /** The attempt's receipt, once written, names this outcome, or an uncertain one that it was restored from. */
  predicate NamesOnly(run: Run, d: Digest, a: Id) {
    match FileAt(run.receipts, Slot(run.db, a))
    case Some(WholeFile(_, native)) => native == d || Restores(run.cfg, run.objects, native, d)
    case _ => true
  }

  /** The attempt was dispatched, its outcome verified, and nothing under way will give it another. */
  predicate Only(run: Run, d: Digest, a: Id) {
    && Priced(run, d, a) && Estimate(run.objects[d].result.usage, run.cfg.policy).Ok?
    && !InState(run.db, WorkOf(run.db, a), Reserved)
    && CarriesOnly(run.cfg, run.pc, d, a) && NamesOnly(run, d, a)
  }

  ghost predicate HasOwner(run: Run, d: Digest) {
    exists a :: Priced(run, d, a)
  }

  ghost predicate Accounted(run: Run) {
    && (forall d | KnownAt(run, d) :: HasOwner(run, d))
    && (forall d, a | Priced(run, d, a) :: Only(run, d, a))
    && (forall d, e, a | Priced(run, d, a) && Priced(run, e, a) :: d == e)
  }

  /** Within a run a request belongs to one attempt. */
  lemma SameRequest(run: Run, auth: Authority, a: Id, b: Id)
    requires RunInv(run, auth) && a in run.db.attempts && b in run.db.attempts
    requires RequestOf(run.db, a) == RequestOf(run.db, b)
    ensures a == b
  {
    hide Keeps, Sane, DepsCompleted;
    InvHealthy(run, auth);
    var j := AttemptPosition(run, auth, a);
    var k := AttemptPosition(run, auth, b);
    SameWork(run.db, a, b);
  }

  // ----- a priced outcome stays the only one ------------------------------------------------------

  /** An attempt with a priced outcome is granted no retry: its receipt does not say that nothing was sent. */
  lemma NoRetry(run: Run, d: Digest, a: Id)
    requires Only(run, d, a)
    ensures !NeverSent(run, a)
  {
    hide Estimate, InState;
  }

  lemma StillCarries(run: Run, auth: Authority, later: Run, d: Digest, a: Id)
    requires RunInv(run, auth) && later.cfg == run.cfg && PcFlows(run.pc, later.pc) && Only(run, d, a)
    ensures CarriesOnly(later.cfg, later.pc, d, a)
  {
    hide Keeps, Sane, InState, Estimate, NamesOnly;
    if later.pc.Launched? {
      PlaceSays(run, auth);
    }
  }

  lemma StillNames(run: Run, later: Run, d: Digest, a: Id)
    requires Only(run, d, a) && later.cfg == run.cfg && FileFlows(run, later, Slot(run.db, a))
    requires Slot(later.db, a) == Slot(run.db, a)
    requires forall e | e in run.objects :: e in later.objects && later.objects[e] == run.objects[e]
    ensures NamesOnly(later, d, a)
  {
    hide Estimate, InState, Restoration;
  }

  /** What a step changes of an attempt with a priced outcome: its row is not reserved again, its receipt keeps its
      name. */
  lemma StillDispatched(run: Run, auth: Authority, later: Run, drawn: set<Id>, d: Digest, a: Id)
    requires RunInv(run, auth) && Changes(run, later, drawn) && Only(run, d, a)
    ensures a in later.db.attempts && later.db.attempts[a] == run.db.attempts[a]
    ensures Slot(later.db, a) == Slot(run.db, a) && !InState(later.db, WorkOf(later.db, a), Reserved)
  {
    hide Keeps, Sane, Estimate, CarriesOnly, NamesOnly, NeverSent, Progress, HasRoom;
    InvHealthy(run, auth);
    NoRetry(run, d, a);
    HealthyAttempt(run.db, a);
    assert RowMoves(run, later.db, WorkOf(run.db, a));
    assert a in later.db.retries && a !in run.db.retries ==> GrantedTo(run, later.db, a);
  }

  lemma OnlyStays(run: Run, auth: Authority, later: Run, drawn: set<Id>, d: Digest, a: Id)
    requires RunInv(run, auth) && Changes(run, later, drawn) && Flows(run, later) && Only(run, d, a)
    ensures Only(later, d, a)
  {
    hide Keeps, TablesMove, Progress, InState, Estimate, PcFlows, FileFlows, CarriesOnly, NamesOnly;
    StillDispatched(run, auth, later, drawn, d, a);
    StillCarries(run, auth, later, d, a);
    StillNames(run, later, d, a);
  }

  // ----- a new priced outcome is the first ----------------------------------------------------------

  /** A new outcome is the one the process carries, verified, of the attempt it is at, and that attempt's only one. */
  lemma NewIsOnly(run: Run, auth: Authority, later: Run, next: Authority, d: Digest)
    requires RunInv(run, auth) && RunInv(later, next) && later.cfg == run.cfg && Flows(run, later)
    requires KnownAt(later, d) && d !in run.objects
    ensures Only(later, d, PcAttempt(later.pc)) && PcOutcome(later.cfg, later.pc) == Some(d)
  {
    hide Keeps, Sane, Estimate, ReceiptsOk, BuiltOk, PcFlows, FileFlows, Dispatches;
    assert BlobFlows(run, later, d);
    InvReceipts(later, next);
    InvCarried(later, next);
    if later.pc.Stored? {
      PlaceSays(later, next);
    } else {
      RestoredIsDispatched(later, next);
    }
  }

  /** The outcome the process has just stored. */
  function PcOutcome(cfg: Config, pc: Pc): Option<Digest> {
    match pc
    case Stored(_, _, result) => Some(cfg.hash(ResultBlob(result)))
    case Restored(_, digest, _) => Some(digest)
    case _ => None
  }

  /** A restored attempt has its receipt, so it was dispatched. */
  lemma RestoredIsDispatched(run: Run, auth: Authority)
    requires RunInv(run, auth) && run.pc.Restored?
    ensures PcAttempt(run.pc) in run.db.attempts && !InState(run.db, WorkOf(run.db, PcAttempt(run.pc)), Reserved)
  {
    hide Keeps, OutcomeOk;
    InvReceipts(run, auth);
    assert FileOk(run.cfg, run.db, run.objects, run.receipts, Slot(run.db, PcAttempt(run.pc)));
  }

  /** An earlier outcome of an attempt that gets a new one is that one: the process was not waiting for another, and a
      receipt restores to one success. */
  lemma OldIsNew(run: Run, auth: Authority, later: Run, next: Authority, drawn: set<Id>, d: Digest, e: Digest)
    requires RunInv(run, auth) && RunInv(later, next) && Changes(run, later, drawn) && Flows(run, later)
    requires KnownAt(later, d) && d !in run.objects && Only(run, e, PcAttempt(later.pc))
    ensures e == d
  {
    hide Keeps, Sane, Estimate, InState, TablesMove, Progress, FilesOk, BuiltOk, FileFlows;
    assert BlobFlows(run, later, d);
    OnlyStays(run, auth, later, drawn, e, PcAttempt(later.pc));
    InvReceipts(later, next);
    InvCarried(later, next);
    InvResults(later, next);
    assert later.cfg.hash(later.objects[e]) == e && later.cfg.hash(later.objects[d]) == d;
  }

  // ----- every step keeps the account ----------------------------------------------------------------

  lemma OwnerStays(run: Run, auth: Authority, later: Run, next: Authority, drawn: set<Id>, d: Digest)
    requires RunInv(run, auth) && RunInv(later, next) && Changes(run, later, drawn) && Flows(run, later)
    requires Accounted(run) && KnownAt(later, d)
    ensures HasOwner(later, d)
  {
    hide Keeps, TablesMove, Progress, Flows, InState, Estimate, CarriesOnly, NamesOnly;
    if d in run.objects {
      assert KnownAt(run, d);
      var a :| Priced(run, d, a);
      OnlyStays(run, auth, later, drawn, d, a);
    } else {
      NewIsOnly(run, auth, later, next, d);
    }
  }

  /** What an attempt has after a step is what it had, or the outcome just stored. */
  lemma PricedBefore(run: Run, auth: Authority, later: Run, next: Authority, drawn: set<Id>, d: Digest, a: Id)
    requires RunInv(run, auth) && RunInv(later, next) && Changes(run, later, drawn) && Flows(run, later)
    requires Accounted(run) && Priced(later, d, a)
    ensures Only(later, d, a)
    ensures d !in run.objects ==> a == PcAttempt(later.pc) && PcOutcome(later.cfg, later.pc) == Some(d)
    ensures d in run.objects ==> Priced(run, d, a)
  {
    hide Keeps, TablesMove, Progress, Flows, InState, Estimate, CarriesOnly, NamesOnly, PcOutcome;
    if d in run.objects {
      assert KnownAt(run, d);
      var b :| Priced(run, d, b);
      assert Only(run, d, b);
      OnlyStays(run, auth, later, drawn, d, b);
      SameRequest(later, next, a, b);
    } else {
      NewIsOnly(run, auth, later, next, d);
      SameRequest(later, next, a, PcAttempt(later.pc));
    }
  }

  lemma OneStays(run: Run, auth: Authority, later: Run, next: Authority, drawn: set<Id>, d: Digest, e: Digest, a: Id)
    requires RunInv(run, auth) && RunInv(later, next) && Changes(run, later, drawn) && Flows(run, later)
    requires Accounted(run) && Priced(later, d, a) && Priced(later, e, a)
    ensures d == e
  {
    hide Keeps, Changes, Flows, Only, PcOutcome, Priced, KnownAt;
    PricedBefore(run, auth, later, next, drawn, d, a);
    PricedBefore(run, auth, later, next, drawn, e, a);
    assert KnownAt(later, d) && KnownAt(later, e) by { PricedIsKnown(later, d, a); PricedIsKnown(later, e, a); }
    if d in run.objects && e !in run.objects {
      OldIsNew(run, auth, later, next, drawn, e, d);
    } else if d !in run.objects && e in run.objects {
      OldIsNew(run, auth, later, next, drawn, d, e);
    }
  }

  lemma PricedIsKnown(run: Run, d: Digest, a: Id)
    requires Priced(run, d, a)
    ensures KnownAt(run, d)
  {
  }

  /** Every step keeps one priced outcome per attempt at most. */
  lemma StepAccounts(run: Run, auth: Authority, later: Run, next: Authority, drawn: set<Id>)
    requires RunInv(run, auth) && RunInv(later, next) && Changes(run, later, drawn) && Flows(run, later)
    requires Accounted(run)
    ensures Accounted(later)
  {
    hide Keeps, Changes, Flows, Only, Priced, HasOwner, KnownAt;
    forall d | KnownAt(later, d) ensures HasOwner(later, d) {
      OwnerStays(run, auth, later, next, drawn, d);
    }
    forall d, a | Priced(later, d, a) ensures Only(later, d, a) {
      PricedBefore(run, auth, later, next, drawn, d, a);
    }
    forall d, e, a | Priced(later, d, a) && Priced(later, e, a) ensures d == e {
      OneStays(run, auth, later, next, drawn, d, e, a);
    }
  }

  lemma EveryRunIsAccounted(tracking: bool, hs: seq<Happening>, r: Id, run: Run)
    requires Has(History(tracking, hs), r, run)
    ensures Accounted(run)
  {
    hide History, Accounted, Changes, Flows, Keeps, FreshRun;
    ghost var P := (x: Run) => Accounted(x);
    forall cfg: Config ensures P(FreshRun(cfg)) {
      FreshIsAccounted(cfg);
    }
    forall x, auth, later, next, drawn: set<Id> |
      RunInv(x, auth) && RunInv(later, next) && Changes(x, later, drawn) && Flows(x, later) && P(x)
      ensures P(later)
    {
      StepAccounts(x, auth, later, next, drawn);
    }
    EveryRunIs(tracking, hs, r, run, P);
  }

  ghost predicate AllAccounted(w: World) {
    forall r, run | Has(w, r, run) :: Accounted(run)
  }

  lemma FreshIsAccounted(cfg: Config)
    ensures Accounted(FreshRun(cfg))
  {
    hide Only, Created;
  }

  // ----- what the outcomes cost -------------------------------------------------------------------------

  /** The estimate in a stored outcome; zero for an uncertain one, or when the usage was not reported. */
  function CostOf(cfg: Config, blob: Blob): real {
    if !Known(blob) then 0.0
    else
      match Estimate(blob.result.usage, cfg.policy)
      case Err(_) => 0.0
      case Ok(cost) => if cost.None? then 0.0 else Decimals.Value(cost.value)
  }

  /** What a stored object costs. */
  function CostAt(run: Run, d: Digest): real {
    if d in run.objects then CostOf(run.cfg, run.objects[d]) else 0.0
  }

  ghost predicate HasOutcome(run: Run, a: Id) {
    exists d :: Priced(run, d, a)
  }

  /** What an attempt's outcome costs; zero without one. */
  ghost function EstimateOf(run: Run, a: Id): real {
    if d :| Priced(run, d, a) then CostAt(run, d) else 0.0
  }

  lemma EstimateOfIs(run: Run, d: Digest, a: Id)
    requires Accounted(run) && Priced(run, d, a)
    ensures EstimateOf(run, a) == CostAt(run, d) && Only(run, d, a) && HasOutcome(run, a)
  {
    hide Priced, CostAt, Only, HasOwner;
  }

  /** What is reserved for one attempt; zero without caps. */
  function CostPer(p: Policy): real {
    match ReservationCost(p)
    case None => 0.0
    case Some(cost) => Decimals.Value(cost)
  }

  /** The units an attempt holds. */
  function UnitsFor(auth: Authority, a: Id): int {
    if a in auth.reservations then UnitsOf(auth.reservations[a]) else 0
  }

  /** An outcome belongs to a charged attempt and costs at most its reserved units. */
  lemma OutcomeIsCovered(run: Run, auth: Authority, a: Id)
    requires RunInv(run, auth) && Accounted(run) && Sound(auth) && !auth.tracking && HasOutcome(run, a)
    ensures a in auth.reservations
    ensures EstimateOf(run, a) * SCALE as real <= UnitsFor(auth, a) as real
  {
    hide Keeps, Sound, Accounted, Charged, Priced, CostPer, EstimateOf;
    OutcomeIsCharged(run, auth, a);
    ModeOfCharge(run, auth, a);
    EstimateIsWithinWorstCase(run, auth, a);
    ChargeCovers(run, auth, a);
  }

  lemma OutcomeIsCharged(run: Run, auth: Authority, a: Id)
    requires RunInv(run, auth) && Accounted(run) && HasOutcome(run, a)
    ensures Charged(run.cfg, run.db, auth, a)
  {
    hide Keeps, CallsOk, InFlightOk, Granted, CarriesOnly, NamesOnly, Estimate;
    InvTables(run, auth);
    var d :| Priced(run, d, a);
    assert Only(run, d, a);
    assert Dispatches(run.db, a) >= 1;
  }

  lemma ChargeCovers(run: Run, auth: Authority, a: Id)
    requires Sound(auth) && !auth.tracking && Charged(run.cfg, run.db, auth, a)
    ensures a in auth.reservations
    ensures CostPer(run.cfg.policy) * SCALE as real <= UnitsFor(auth, a) as real
  {
    hide ValidAmount, AmountUnits, Total, ReservationCost, Decimals.Value;
    assert RowSound(auth, a);
  }

  lemma EstimateIsWithinWorstCase(run: Run, auth: Authority, a: Id)
    requires RunInv(run, auth) && Accounted(run) && run.cfg.policy.caps.Some? && HasOutcome(run, a)
    ensures EstimateOf(run, a) <= CostPer(run.cfg.policy)
  {
    hide Keeps, Sane, Estimate, ValidPlan, ReservationCost, CarriesOnly, NamesOnly, ValidPolicy, EstimateOf,
      Decimals.Value, Accounted;
    InvHealthy(run, auth);
    var d :| Priced(run, d, a);
    EstimateOfIs(run, d, a);
    WorstCaseIsPositive(run.cfg.policy);
    var usage := run.objects[d].result.usage;
    if Estimate(usage, run.cfg.policy).value.Some? {
      UsageWithinReservation(usage, run.cfg.policy);
    }
  }

  lemma WorstCaseIsPositive(p: Policy)
    requires ValidPolicy(p) && p.caps.Some?
    ensures ReservationCost(p).Some? && CostPer(p) >= 0.0
  {
    hide ValidPolicy, Decimals.Value;
    Decimals.ValueNonNegative(ReservationCost(p).value);
  }

  /** The estimate recorded anywhere for an attempt. */
  ghost function EstimateIn(w: World, a: Id): real {
    if r :| r in w.runs && HasOutcome(w.runs[r], a) then EstimateOf(w.runs[r], a) else 0.0
  }

  ghost function Spent(w: World, s: set<Id>): real {
    if s == {} then 0.0
    else
      var a :| a in s;
      EstimateIn(w, a) + Spent(w, s - {a})
  }

  lemma {:induction false} SpentSplit(w: World, s: set<Id>, a: Id)
    requires a in s
    ensures Spent(w, s) == EstimateIn(w, a) + Spent(w, s - {a})
  {
    var b :| b in s && Spent(w, s) == EstimateIn(w, b) + Spent(w, s - {b});
    if a != b {
      SpentSplit(w, s - {b}, a);
      SpentSplit(w, s - {a}, b);
      assert s - {a} - {b} == s - {b} - {a};
    }
  }

  /** Attempts belong to one run, so its estimate is the run's. */
  lemma EstimateInIs(w: World, r: Id, run: Run, a: Id)
    requires Apart(w) && Has(w, r, run) && HasOutcome(run, a)
    ensures EstimateIn(w, a) == EstimateOf(run, a)
  {
    hide Known, EstimateOf, Only;
    var s :| s in w.runs && HasOutcome(w.runs[s], a) && EstimateIn(w, a) == EstimateOf(w.runs[s], a);
    OutcomeAttempt(run, a);
    OutcomeAttempt(w.runs[s], a);
  }

  lemma OutcomeAttempt(run: Run, a: Id)
    requires HasOutcome(run, a)
    ensures a in run.db.attempts
  {
    var d :| Priced(run, d, a);
  }

  lemma EstimateInIsCovered(w: World, a: Id)
    requires WorldInv(w) && AllAccounted(w) && !w.auth.tracking && a in w.auth.reservations
    ensures EstimateIn(w, a) * SCALE as real <= UnitsFor(w.auth, a) as real
  {
    hide Keeps, Total, Accounted, EstimateOf, HasOutcome, Owned;
    assert RowSound(w.auth, a);
    if r :| r in w.runs && HasOutcome(w.runs[r], a) && EstimateIn(w, a) == EstimateOf(w.runs[r], a) {
      assert Has(w, r, w.runs[r]);
      OutcomeIsCovered(w.runs[r], w.auth, a);
    }
  }

  lemma {:induction false} SpentIsCovered(w: World, m: Reservations)
    requires WorldInv(w) && AllAccounted(w) && !w.auth.tracking && m.Items <= w.auth.reservations.Items
    ensures Spent(w, m.Keys) * SCALE as real <= Total(m) as real
    decreases |m|
  {
    hide WorldInv, EstimateIn, AllAccounted;
    if m != map[] {
      var a :| a in m;
      assert (a, m[a]) in m.Items;
      TotalSplit(m, a);
      SpentSplit(w, m.Keys, a);
      assert (m - {a}).Keys == m.Keys - {a};
      assert (m - {a}).Items <= m.Items;
      SpentIsCovered(w, m - {a});
      EstimateInIsCovered(w, a);
    }
  }

  /** End to end, over every history of runs, crashes, retries and restorations, and over every stored outcome, recorded
      or left behind by a crash: an outcome that is not uncertain belongs to one charged attempt, which has no other;
      the estimates sum to at most the reserved units, and those to at most fifty dollars. */
  lemma MoneyBound(hs: seq<Happening>)
    ensures var w := History(false, hs);
      && (forall r, run :: Has(w, r, run) ==> OneEach(run) && OwnersHold(w, run))
      && Spent(w, w.auth.reservations.Keys) * SCALE as real <= Total(w.auth.reservations) as real
      && Total(w.auth.reservations) <= 50 * SCALE
  {
    hide WorldInv, History, Total, Spent, OneEach, OwnersHold, Accounted;
    EveryHistoryIsSafe(false, hs);
    var w := History(false, hs);
    forall r, run | Has(w, r, run) ensures Accounted(run) {
      EveryRunIsAccounted(false, hs, r, run);
    }
    assert AllAccounted(w);
    UnderCeiling(w);
    SpentIsCovered(w, w.auth.reservations);
    forall r, run | Has(w, r, run) ensures OneEach(run) && OwnersHold(w, run) {
      RunsAreSafe(w, r, run);
      RunIsCovered(w, r, run);
    }
  }

  /** Every stored outcome with an estimate belongs to exactly one attempt, and every attempt has at most one. */
  ghost predicate OneEach(run: Run) {
    && (forall d | KnownAt(run, d) :: HasOwner(run, d))
    && (forall d, e, a | Priced(run, d, a) && Priced(run, e, a) :: d == e)
    && (forall d, a, b | Priced(run, d, a) && Priced(run, d, b) :: a == b)
  }

  /** That attempt is charged, and its outcome's cost is what the sum counts for it. */
  ghost predicate OwnersHold(w: World, run: Run) {
    forall d, a | Priced(run, d, a) :: a in w.auth.reservations && EstimateIn(w, a) == CostAt(run, d)
  }

  lemma RunIsCovered(w: World, r: Id, run: Run)
    requires WorldInv(w) && AllAccounted(w) && !w.auth.tracking && Has(w, r, run) && RunInv(run, w.auth)
    ensures OneEach(run) && OwnersHold(w, run)
  {
    hide Keeps, Only, Sound, EstimateIn, CostAt, EstimateOf, Owned;
    forall d, a, b | Priced(run, d, a) && Priced(run, d, b) ensures a == b {
      SameRequest(run, w.auth, a, b);
    }
    forall d, a | Priced(run, d, a) ensures a in w.auth.reservations && EstimateIn(w, a) == CostAt(run, d) {
      EstimateOfIs(run, d, a);
      OutcomeIsCovered(run, w.auth, a);
      EstimateInIs(w, r, run, a);
    }
  }

  lemma UnderCeiling(w: World)
    requires WorldInv(w) && !w.auth.tracking
    ensures Total(w.auth.reservations) <= CEILING
  {
    hide Keeps, Apart, Owned;
  }
}
