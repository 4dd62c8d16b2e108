/**
 What every reachable provider run satisfies, stated table by table: the ledger, the
 process's place in its loop, calls and dispatches, shared reservations, stored
 requests and results, and receipt files. The frame lemmas say which changes leave
 each part alone.
 */
module ProviderInvariant {
  import opened Wrappers
  import opened Plans
  import opened LedgerTables
  import opened LedgerOps
  import opened LedgerSoundness
  import opened LedgerMoves
  import opened LedgerRuns
  import opened Campaign
  import opened Policies
  import opened ProviderRun

  // ----- dispatches -------------------------------------------------------------------

  /** Number of dispatches of an attempt, by `LedgerRuns.DispatchBound` the number of its in-flight events. */
  function Dispatches(db: Db, a: Id): int {
    if a in db.attempts then 1 + One(a in db.retries) - One(InState(db, db.attempts[a].work, Reserved)) else 0
  }

  lemma DispatchesAreEvents(db: Db, a: Id)
    requires Healthy(db) && a in db.attempts
    ensures Dispatches(db, a) == Count(db.events, |db.events|, WorkOf(db, a), InFlight)
  {
    HealthySays(db);
    DispatchBound(db, a);
  }

  function Calls(invoked: seq<Id>, a: Id): nat {
    multiset(invoked)[a]
  }

  lemma CallsAfter(invoked: seq<Id>, b: Id, a: Id)
    ensures Calls(invoked + [b], a) == Calls(invoked, a) + One(a == b)
  {
    assert multiset(invoked + [b]) == multiset(invoked) + multiset{b};
  }

  // ----- the process ---------------------------------------------------------------------

  /** The attempt whose call is under way, if any. */
  function Active(pc: Pc): Option<Id> {
    match pc
    case Launched(_, a) => Some(a)
    case Answered(_, a, _) => Some(a)
    case Stored(_, a, _) => Some(a)
    case Opened(_, a, _) => Some(a)
    case Receipted(_, a, _) => Some(a)
    case _ => None
  }

  /** The process is at an attempt whose row it has just read or moved. */
  predicate Placed(pc: Pc) {
    !pc.Idle? && !pc.At? && !pc.Built? && !pc.Restored? && !pc.Reconciled?
  }

  /** The state that row must be in for the process to be where it is. */
  function Due(pc: Pc): State {
    match pc
    case Held(_, _) => Reserved
    case Funded(_, _) => Reserved
    case Recorded(_, _) => ResultSaved
    case _ => InFlight
  }

  /** The process is inside its loop. */
  predicate Driving(pc: Pc) {
    !pc.Idle? && !pc.Restored? && !pc.Reconciled?
  }

  predicate PcOk(plan: seq<Row>, db: Db, pc: Pc) {
    Placed(pc) ==>
      && PcRow(pc) < |plan| && PcAttempt(pc) in db.attempts && WorkOf(db, PcAttempt(pc)) == plan[PcRow(pc)].work
      && InState(db, WorkOf(db, PcAttempt(pc)), Due(pc))
  }

  /** A driving process has at most its own item in flight; otherwise there is at most one, left by a crash. */
  ghost predicate InFlightOk(db: Db, pc: Pc) {
    if !Driving(pc) then
      forall v, w :: InState(db, v, InFlight) && InState(db, w, InFlight) ==> v == w
    else
      forall w :: InState(db, w, InFlight) ==>
        Active(pc).Some? && PcAttempt(pc) in db.attempts && WorkOf(db, PcAttempt(pc)) == w
  }

  /** A launched attempt has exactly one call still to make. */
  function Spare(pc: Pc, a: Id): nat {
    if pc.Launched? && pc.a == a then 1 else 0
  }

  /** Calls never outrun dispatches; a launched attempt has one call to spare. */
  ghost predicate CallsOk(db: Db, invoked: seq<Id>, pc: Pc) {
    forall a :: Calls(invoked, a) + Spare(pc, a) <= Dispatches(db, a)
  }

  // ----- shared reservations -----------------------------------------------------------------

  ghost predicate Charged(cfg: Config, db: Db, auth: Authority, a: Id) {
    Granted(auth, ClaimFor(cfg, a, RequestOf(db, a)))
  }

  /** Every dispatched attempt holds its campaign reservation, and so does the one about to start. */
  ghost predicate FundsOk(cfg: Config, db: Db, auth: Authority, pc: Pc) {
    && (forall a | a in db.attempts :: Dispatches(db, a) >= 1 ==> Charged(cfg, db, auth, a))
    && (pc.Funded? ==> Charged(cfg, db, auth, PcAttempt(pc)))
    && (forall a | a in db.attempts && a in auth.reservations :: Charged(cfg, db, auth, a))
  }

  // ----- stored requests and results ----------------------------------------------------------

  ghost predicate ObjectsOk(cfg: Config, objects: Objects) {
    forall d | d in objects :: cfg.hash(objects[d]) == d
  }

  function RowRequest(db: Db, w: Id): Digest {
    match Current(db, w)
    case None => Digest(0)
    case Some(c) => if c.request.Some? then c.request.value else Digest(0)
  }

  predicate Saved(db: Db, w: Id) {
    InState(db, w, ResultSaved) || InState(db, w, Completed)
  }

  ghost predicate ResultsOk(cfg: Config, db: Db, objects: Objects) {
    forall w | Saved(db, w) :: GoodResult(cfg, objects, RowRequest(db, w), ResultDigest(db, w))
  }

  /** The request is what would be built for row `k` now, and it has its prompt. */
  ghost predicate BuiltAt(run: Run, k: nat, env: Envelope) {
    var row := PlanRow(run, k);
    && k < |run.cfg.plan| && env == Build(run, row, env.external)
    && HasInput(run, row)
    && (row.role == Revision ==> env.external.Some?)
    && run.cfg.prompt(row, env).Some?
    && DepsCompleted(run.db, row.work)
  }

  ghost predicate StoredRequest(run: Run, k: nat, digest: Digest) {
    digest in run.objects && run.objects[digest].EnvelopeBlob? && BuiltAt(run, k, run.objects[digest].envelope)
  }

  /** The stored request of an attempt is exactly what would be rebuilt now. */
  ghost predicate RequestOk(run: Run, a: Id) {
    exists k: nat :: RequestAtRow(run, k, a)
  }

  ghost predicate RequestAtRow(run: Run, k: nat, a: Id) {
    && a in run.db.attempts && k < |run.cfg.plan| && PlanRow(run, k).work == WorkOf(run.db, a)
    && StoredRequest(run, k, RequestOf(run.db, a))
  }

  ghost predicate RequestsOk(run: Run) {
    forall a | a in run.db.attempts :: RequestOk(run, a)
  }

  /** A request built and not yet reserved is for a row whose turn it is, and matches its reservation if it has one. */
  ghost predicate BuiltOk(run: Run) {
    run.pc.Built? ==>
      && run.pc.k < |run.cfg.plan|
      && StoredRequest(run, run.pc.k, run.pc.request)
      && HoldableRow(run.db, PlanRow(run, run.pc.k).work, run.pc.request)
  }

  predicate HoldableRow(db: Db, w: Id, request: Digest) {
    InState(db, w, Planned) || (InState(db, w, Reserved) && Current(db, w).value.request == Some(request))
  }

  predicate StoredAs(cfg: Config, objects: Objects, result: ResultRecord) {
    var d := cfg.hash(ResultBlob(result)); d in objects && objects[d] == ResultBlob(result)
  }

  /** The stored result under `digest` is what the outcome under `native` restores to. */
  predicate Restores(cfg: Config, objects: Objects, native: Digest, digest: Digest) {
    && native in objects && objects[native].ResultBlob?
    && digest in objects && objects[digest].ResultBlob?
    && Restoration(cfg, objects[native].result) == Some(objects[digest].result)
  }

  /** The result the process carries is the one the reply was judged to be, bound to its request. */
  ghost predicate CarriedOk(cfg: Config, db: Db, objects: Objects, pc: Pc) {
    match pc
    case Answered(_, a, result) => CarriesAnswer(cfg, db, objects, a, result)
    case Stored(_, a, result) => CarriesAnswer(cfg, db, objects, a, result) && StoredAs(cfg, objects, result)
    case Opened(_, a, result) =>
      CarriesAnswer(cfg, db, objects, a, result) && StoredAs(cfg, objects, result) && result.status != Success
    case Receipted(_, _, result) => result.status != Success
    case Restored(a, digest, receipt) =>
      GoodResult(cfg, objects, RequestOf(db, a), digest) && Restores(cfg, objects, receipt, digest)
    case _ => true
  }

  predicate CarriesAnswer(cfg: Config, db: Db, objects: Objects, a: Id, result: ResultRecord) {
    && Bound(objects, RequestOf(db, a), result)
    && (result.status != CallUncertain ==> Estimate(result.usage, cfg.policy).Ok?)
  }

  // ----- receipt files ----------------------------------------------------------------------------

  /** A receipt names a stored outcome that is no success, bound to its request; it is uncertain or its usage
      verifies. */
  predicate OutcomeOk(cfg: Config, objects: Objects, request: Digest, native: Digest) {
    && native in objects && objects[native].ResultBlob?
    && objects[native].result.status != Success && Bound(objects, request, objects[native].result)
    && (objects[native].result.status != CallUncertain ==> Estimate(objects[native].result.usage, cfg.policy).Ok?)
  }

  /** A file belongs to a dispatch that happened; an unfilled one to an item in flight, under its present name. */
  predicate FileOk(cfg: Config, db: Db, objects: Objects, receipts: Files, f: (Id, bool)) {
    && f in receipts && f.0 in db.attempts && Dispatches(db, f.0) >= (if f.1 then 2 else 1)
    && match receipts[f]
       case TornFile => InState(db, db.attempts[f.0].work, InFlight) && f == Slot(db, f.0)
       case WholeFile(request, native) =>
         request == db.attempts[f.0].request && OutcomeOk(cfg, objects, request, native)
  }

  ghost predicate FilesOk(cfg: Config, db: Db, objects: Objects, receipts: Files) {
    forall f | f in receipts ::
      FileOk(cfg, db, objects, receipts, f)
  }

  predicate Names(receipts: Files, f: (Id, bool), native: Digest) {
    f in receipts && receipts[f].WholeFile? && receipts[f].native == native
  }

  /** A granted retry keeps the first receipt, which says that nothing was sent. */
  predicate RetryOk(cfg: Config, db: Db, objects: Objects, receipts: Files, a: Id) {
    && a in db.retries
    && var native := db.retries[a].receipt;
    && Names(receipts, (a, false), native)
    && native in objects && objects[native].ResultBlob? && Unsent(cfg, objects[native].result)
  }

  ghost predicate RetriesOk(cfg: Config, db: Db, objects: Objects, receipts: Files) {
    forall a | a in db.retries :: RetryOk(cfg, db, objects, receipts, a)
  }

  /** A saved result whose item has a present receipt was recovered from it. */
  ghost predicate SavesOk(db: Db, receipts: Files) {
    forall a | a in db.attempts && Saved(db, db.attempts[a].work) && Slot(db, a) in receipts :: a in db.reconciliations
  }

  predicate Failing(db: Db, w: Id) {
    InState(db, w, Failed) || InState(db, w, Limited)
  }

  ghost predicate FailuresOk(db: Db, receipts: Files) {
    forall a | a in db.attempts && Failing(db, db.attempts[a].work) :: Slot(db, a) in receipts
  }

  predicate ReconciledOk(cfg: Config, db: Db, objects: Objects, receipts: Files, a: Id) {
    && a in db.reconciliations
    && var row := db.reconciliations[a];
    && a in db.attempts && Saved(db, db.attempts[a].work) && ResultDigest(db, db.attempts[a].work) == row.result
    && Names(receipts, Slot(db, a), row.receipt) && Restores(cfg, objects, row.receipt, row.result)
  }

  /** A reconciled item keeps the receipt its result was restored from. */
  ghost predicate ReconciliationsOk(cfg: Config, db: Db, objects: Objects, receipts: Files) {
    forall a | a in db.reconciliations :: ReconciledOk(cfg, db, objects, receipts, a)
  }

  ghost predicate ReceiptsOk(cfg: Config, db: Db, objects: Objects, receipts: Files) {
    && FilesOk(cfg, db, objects, receipts) && RetriesOk(cfg, db, objects, receipts) && FailuresOk(db, receipts)
    && SavesOk(db, receipts) && ReconciliationsOk(cfg, db, objects, receipts)
  }

  /** The file the process is about to create, fill or read is as it expects. */
  predicate SlotOk(cfg: Config, db: Db, receipts: Files, pc: Pc) {
    match pc
    case Launched(_, a) => Slot(db, a) !in receipts
    case Answered(_, a, _) => Slot(db, a) !in receipts
    case Stored(_, a, _) => Slot(db, a) !in receipts
    case Opened(_, a, _) => Slot(db, a) in receipts && receipts[Slot(db, a)].TornFile?
    case Receipted(_, a, _) => Slot(db, a) in receipts && receipts[Slot(db, a)].WholeFile?
    case Restored(a, _, receipt) => Names(receipts, Slot(db, a), receipt)
    case _ => true
  }

  // ----- the invariant of one run ---------------------------------------------------------------------

  /** What the invariant speaks of. */
  datatype Part = OfLedger | OfPlace | OfFlight | OfCalls | OfFunds | OfFiles | OfObjects | OfRequests

  /** One part of the invariant. */
  ghost predicate Keeps(p: Part, run: Run, auth: Authority) {
    match p
    case OfLedger => ValidConfig(run.cfg) && Healthy(run.db) && run.db.plan == run.cfg.plan
    case OfPlace =>
      PcOk(run.cfg.plan, run.db, run.pc) && CarriedOk(run.cfg, run.db, run.objects, run.pc) && BuiltOk(run)
    case OfFlight => InFlightOk(run.db, run.pc)
    case OfCalls => CallsOk(run.db, run.invoked, run.pc)
    case OfFunds => FundsOk(run.cfg, run.db, auth, run.pc)
    case OfFiles =>
      ReceiptsOk(run.cfg, run.db, run.objects, run.receipts) && SlotOk(run.cfg, run.db, run.receipts, run.pc)
    case OfObjects => ObjectsOk(run.cfg, run.objects) && ResultsOk(run.cfg, run.db, run.objects)
    case OfRequests => RequestsOk(run)
  }

  ghost predicate RunInv(run: Run, auth: Authority) {
    forall p: Part :: Keeps(p, run, auth)
  }

  lemma InvHealthy(run: Run, auth: Authority)
    requires RunInv(run, auth)
    ensures Healthy(run.db) && run.db.plan == run.cfg.plan && ValidConfig(run.cfg)
  {
    assert Keeps(OfLedger, run, auth);
  }

  lemma InvResults(run: Run, auth: Authority)
    requires RunInv(run, auth)
    ensures ResultsOk(run.cfg, run.db, run.objects) && ObjectsOk(run.cfg, run.objects) && RequestsOk(run)
  {
    assert Keeps(OfObjects, run, auth);
    assert Keeps(OfRequests, run, auth);
  }

  lemma InvReceipts(run: Run, auth: Authority)
    requires RunInv(run, auth)
    ensures ReceiptsOk(run.cfg, run.db, run.objects, run.receipts)
    ensures SlotOk(run.cfg, run.db, run.receipts, run.pc)
  {
    assert Keeps(OfFiles, run, auth);
  }

  lemma InvCarried(run: Run, auth: Authority)
    requires RunInv(run, auth)
    ensures CarriedOk(run.cfg, run.db, run.objects, run.pc) && BuiltOk(run) && PcOk(run.cfg.plan, run.db, run.pc)
  {
    assert Keeps(OfPlace, run, auth);
  }

  lemma InvTables(run: Run, auth: Authority)
    requires RunInv(run, auth)
    ensures CallsOk(run.db, run.invoked, run.pc) && FundsOk(run.cfg, run.db, auth, run.pc)
    ensures InFlightOk(run.db, run.pc)
  {
    assert Keeps(OfCalls, run, auth);
    assert Keeps(OfFunds, run, auth);
    assert Keeps(OfFlight, run, auth);
  }

  /** What the process's position says of its attempt. */
  lemma PlaceSays(run: Run, auth: Authority)
    requires RunInv(run, auth) && Placed(run.pc)
    ensures Healthy(run.db) && PcRow(run.pc) < |run.cfg.plan| && PcAttempt(run.pc) in run.db.attempts
    ensures WorkOf(run.db, PcAttempt(run.pc)) == PlanRow(run, PcRow(run.pc)).work
    ensures InState(run.db, PlanRow(run, PcRow(run.pc)).work, Due(run.pc))
  {
    hide Keeps, Sane;
    InvHealthy(run, auth);
    InvCarried(run, auth);
  }

  /** An attempt's row repeats the attempt and its request. */
  lemma RowRequestIs(run: Run, auth: Authority, w: Id)
    requires RunInv(run, auth) && Current(run.db, w).Some? && BeyondReservation(RowOf(run.db, w).state)
    ensures var a := AttemptOn(run.db, w);
      && RowOf(run.db, w).attempt == Some(a) && a in run.db.attempts && WorkOf(run.db, a) == w
      && RowOf(run.db, w).request == Some(RequestOf(run.db, a))
  {
    hide Keeps;
    InvHealthy(run, auth);
    HealthySays(run.db);
    CurrentAttempt(run.db, w);
  }

  // ----- how a single event changes what the invariant reads ------------------------------------

  lemma DispatchesMoved(db: Db, later: Db, e: Event, a: Id)
    requires Moved(db, later, e) && later.retries == db.retries
    ensures a in db.attempts && WorkOf(db, a) == e.work ==>
      Dispatches(later, a) ==
        Dispatches(db, a) + One(InState(db, e.work, Reserved)) - One(e.state == Reserved)
    ensures !(a in db.attempts && WorkOf(db, a) == e.work) ==> Dispatches(later, a) == Dispatches(db, a)
  {
    hide Sane;
  }

  // ----- stored requests and results survive ----------------------------------------------------

  /** Completed items keep their rows; everything stored stays stored. */
  ghost predicate Preserves(run: Run, later: Run) {
    && later.cfg == run.cfg && later.db.plan == run.db.plan && run.db.plan == run.cfg.plan
    && UniqueWorks(run.cfg.plan) && ResultsOk(run.cfg, run.db, run.objects)
    && (forall w | InState(run.db, w, Completed) :: Current(later.db, w) == Current(run.db, w))
    && (forall d | d in run.objects :: d in later.objects && later.objects[d] == run.objects[d])
  }

  /** What a row's completed dependencies contribute to its request is the same later. */
  lemma CustodyStays(run: Run, later: Run, k: nat)
    requires Preserves(run, later) && k < |run.cfg.plan| && DepsCompleted(run.db, PlanRow(run, k).work)
    ensures DepsCompleted(later.db, PlanRow(run, k).work)
    ensures forall external ::
      Build(later, PlanRow(run, k), external) == Build(run, PlanRow(run, k), external)
  {
    hide Estimate, Bound;
    var row := run.cfg.plan[k];
    DepsOfRow(run.cfg.plan, k);
    forall d | d in row.deps
      ensures InState(later.db, d, Completed) && ResultDigest(later.db, d) == ResultDigest(run.db, d)
      ensures OutputOf(later.objects, ResultDigest(run.db, d)) == OutputOf(run.objects, ResultDigest(run.db, d))
    {
      assert InState(run.db, d, Completed);
      assert Saved(run.db, d);
    }
    assert Parents(later.db, row.deps) == Parents(run.db, row.deps);
    assert Outputs(later.db, later.objects, row.deps) == Outputs(run.db, run.objects, row.deps);
  }

  lemma BuiltSurvives(run: Run, later: Run, k: nat, env: Envelope)
    requires Preserves(run, later) && k < |run.cfg.plan| && BuiltAt(run, k, env)
    ensures BuiltAt(later, k, env)
  {
    hide Preserves, DepsCompleted, Build;
    PreservesConfig(run, later);
    CustodyStays(run, later, k);
  }

  lemma StoredSurvives(run: Run, later: Run, k: nat, digest: Digest)
    requires Preserves(run, later) && k < |run.cfg.plan| && StoredRequest(run, k, digest)
    ensures StoredRequest(later, k, digest)
  {
    hide BuiltAt, ResultsOk;
    BuiltSurvives(run, later, k, run.objects[digest].envelope);
  }

  lemma RequestSurvives(run: Run, later: Run, a: Id)
    requires Preserves(run, later)
    requires a in run.db.attempts && RequestOk(run, a)
    requires a in later.db.attempts && later.db.attempts[a] == run.db.attempts[a]
    ensures RequestOk(later, a)
  {
    hide StoredRequest, Preserves;
    assert later.cfg == run.cfg by { PreservesConfig(run, later); }
    var k: nat :| k < |run.cfg.plan| && RequestAtRow(run, k, a);
    StoredSurvives(run, later, k, run.db.attempts[a].request);
    assert RequestAtRow(later, k, a);
  }

  lemma PreservesConfig(run: Run, later: Run)
    requires Preserves(run, later)
    ensures later.cfg == run.cfg
  {
  }

  lemma RequestsSurvive(run: Run, later: Run)
    requires Preserves(run, later) && RequestsOk(run) && later.db.attempts == run.db.attempts
    ensures RequestsOk(later)
  {
    hide Preserves, RequestOk;
    forall a | a in later.db.attempts ensures RequestOk(later, a) {
      RequestSurvives(run, later, a);
    }
  }

  /** The store grows, and every object stays under its own digest. */
  ghost predicate Extends(cfg: Config, objects: Objects, more: Objects) {
    && ObjectsOk(cfg, more)
    && forall d | d in objects :: d in more && more[d] == objects[d]
  }

  predicate Stores(objects: Objects, d: Digest, blob: Blob) {
    d in objects && objects[d] == blob
  }

  lemma PutExtends(run: Run, blob: Blob)
    requires ValidConfig(run.cfg) && ObjectsOk(run.cfg, run.objects)
    ensures Extends(run.cfg, run.objects, Put(run, blob).objects)
    ensures Stores(Put(run, blob).objects, run.cfg.hash(blob), blob)
    ensures Put(run, blob) == run.(objects := Put(run, blob).objects)
  {
    hide ValidPlan, ValidPolicy;
    var d := run.cfg.hash(blob);
    if d in run.objects {
      assert run.cfg.hash(run.objects[d]) == d;
    }
  }

  lemma SameObjects(run: Run, auth: Authority)
    requires RunInv(run, auth)
    ensures Extends(run.cfg, run.objects, run.objects)
  {
    hide Keeps;
    InvResults(run, auth);
  }

  lemma GoodStays(cfg: Config, objects: Objects, more: Objects, request: Digest, digest: Digest)
    requires Extends(cfg, objects, more) && GoodResult(cfg, objects, request, digest)
    ensures GoodResult(cfg, more, request, digest)
  {
    hide Estimate;
  }

  lemma OutcomeStays(cfg: Config, objects: Objects, more: Objects, request: Digest, native: Digest)
    requires Extends(cfg, objects, more) && OutcomeOk(cfg, objects, request, native)
    ensures OutcomeOk(cfg, more, request, native)
  {
    hide Estimate;
  }

  // ----- steps that leave every attempt's dispatch count alone ---------------------------------------

  /** Reserved items stay reserved and no others become so; completed ones stay; saved results are verified ones. */
  ghost predicate Quiet(run: Run, later: Db, objects: Objects) {
    && Healthy(later) && later.plan == run.db.plan && later.attempts == run.db.attempts
    && (forall a | a in later.attempts :: Dispatches(later, a) == Dispatches(run.db, a))
    && (forall w | InState(run.db, w, Completed) :: Current(later, w) == Current(run.db, w))
    && ResultsOk(run.cfg, later, objects)
  }

  /** The new position of the process is one its tables and files allow. */
  ghost predicate PlaceOk(next: Run, auth: Authority) {
    && PcOk(next.cfg.plan, next.db, next.pc) && InFlightOk(next.db, next.pc) && !next.pc.Launched?
    && CarriedOk(next.cfg, next.db, next.objects, next.pc) && BuiltOk(next)
    && ReceiptsOk(next.cfg, next.db, next.objects, next.receipts)
    && SlotOk(next.cfg, next.db, next.receipts, next.pc)
    && (next.pc.Funded? ==> Charged(next.cfg, next.db, auth, PcAttempt(next.pc)))
  }

  lemma QuietKeeps(run: Run, auth: Authority, next: Run)
    requires RunInv(run, auth) && Quiet(run, next.db, next.objects) && Extends(run.cfg, run.objects, next.objects)
    requires next.cfg == run.cfg && next.invoked == run.invoked && PlaceOk(next, auth)
    ensures RunInv(next, auth)
  {
    hide Sane, Dispatches, InState, PcOk, InFlightOk, CarriedOk, ResultsOk, ObjectsOk, ValidConfig, RequestsOk,
      CallsOk, FundsOk, ReceiptsOk, SlotOk, BuiltOk, Charged;
    InvHealthy(run, auth);
    QuietRequests(run, auth, next);
    QuietCalls(run, auth, next.db, next.pc);
    QuietFunds(run, auth, next.db, next.pc);
    forall p: Part ensures Keeps(p, next, auth) {
    }
  }

  lemma QuietPreserves(run: Run, auth: Authority, next: Run)
    requires RunInv(run, auth) && Quiet(run, next.db, next.objects) && next.cfg == run.cfg
    requires Extends(run.cfg, run.objects, next.objects)
    ensures Preserves(run, next)
  {
    hide Sane, Keeps, Dispatches, ResultsOk, ObjectsOk, RequestsOk, ValidPolicy;
    InvHealthy(run, auth);
    InvResults(run, auth);
  }

  lemma QuietRequests(run: Run, auth: Authority, next: Run)
    requires RunInv(run, auth) && Quiet(run, next.db, next.objects) && next.cfg == run.cfg
    requires Extends(run.cfg, run.objects, next.objects)
    ensures RequestsOk(next)
  {
    hide Keeps, Extends, Preserves, ResultsOk, RequestsOk;
    QuietPreserves(run, auth, next);
    InvResults(run, auth);
    assert next.db.attempts == run.db.attempts;
    RequestsSurvive(run, next);
  }

  lemma QuietCalls(run: Run, auth: Authority, later: Db, pc: Pc)
    requires RunInv(run, auth) && !pc.Launched?
    requires later.attempts == run.db.attempts
    requires forall a | a in later.attempts :: Dispatches(later, a) == Dispatches(run.db, a)
    ensures CallsOk(later, run.invoked, pc)
  {
    hide Keeps, FundsOk, InFlightOk, InState, Calls;
    InvTables(run, auth);
    forall a ensures Calls(run.invoked, a) <= Dispatches(later, a) {
      assert Calls(run.invoked, a) + Spare(run.pc, a) <= Dispatches(run.db, a);
    }
  }

  lemma QuietFunds(run: Run, auth: Authority, later: Db, pc: Pc)
    requires RunInv(run, auth) && later.attempts == run.db.attempts
    requires forall a | a in later.attempts :: Dispatches(later, a) == Dispatches(run.db, a)
    requires pc.Funded? ==> Charged(run.cfg, later, auth, PcAttempt(pc))
    ensures FundsOk(run.cfg, later, auth, pc)
  {
    hide Keeps, CallsOk, InFlightOk, Granted, Dispatches;
    InvTables(run, auth);
    forall a | a in later.attempts ensures Charged(run.cfg, run.db, auth, a) == Charged(run.cfg, later, auth, a) {
    }
  }

  /** A growing store is quiet. */
  lemma StoreIsQuiet(run: Run, auth: Authority, objects: Objects)
    requires RunInv(run, auth) && Extends(run.cfg, run.objects, objects)
    ensures Quiet(run, run.db, objects)
  {
    hide Sane, Keeps, ObjectsOk, RequestsOk, ValidConfig, Dispatches, GoodResult, Extends;
    InvHealthy(run, auth);
    InvResults(run, auth);
    forall w | Saved(run.db, w)
      ensures GoodResult(run.cfg, objects, RowRequest(run.db, w), ResultDigest(run.db, w))
    {
      GoodStays(run.cfg, run.objects, objects, RowRequest(run.db, w), ResultDigest(run.db, w));
    }
  }

  lemma PutGrows(run: Run, auth: Authority, blob: Blob)
    requires RunInv(run, auth)
    ensures Extends(run.cfg, run.objects, Put(run, blob).objects)
    ensures Stores(Put(run, blob).objects, run.cfg.hash(blob), blob)
    ensures Put(run, blob) == run.(objects := Put(run, blob).objects)
  {
    hide Keeps, Sane, ValidConfig, Put, ResultsOk, RequestsOk, ObjectsOk, Extends;
    InvHealthy(run, auth);
    InvResults(run, auth);
    PutExtends(run, blob);
  }

  /** One event that neither makes nor ends a reservation. */
  lemma EventIsQuiet(run: Run, auth: Authority, later: Db, e: Event, objects: Objects)
    requires RunInv(run, auth) && Moved(run.db, later, e) && later.retries == run.db.retries
    requires e.state != Reserved && !InState(run.db, e.work, Reserved)
      && !InState(run.db, e.work, Completed)
    requires Extends(run.cfg, run.objects, objects)
    requires Saved(later, e.work) ==>
      GoodResult(run.cfg, objects, RowRequest(later, e.work), ResultDigest(later, e.work))
    ensures Quiet(run, later, objects)
  {
    hide Keeps, Sane, GoodResult, Extends;
    InvHealthy(run, auth);
    InvResults(run, auth);
    forall a | a in later.attempts ensures Dispatches(later, a) == Dispatches(run.db, a) {
      DispatchesMoved(run.db, later, e, a);
    }
    EventResults(run, later, e, objects);
  }

  lemma EventResults(run: Run, later: Db, e: Event, objects: Objects)
    requires ResultsOk(run.cfg, run.db, run.objects) && Moved(run.db, later, e)
      && Extends(run.cfg, run.objects, objects)
    requires Saved(later, e.work) ==>
      GoodResult(run.cfg, objects, RowRequest(later, e.work), ResultDigest(later, e.work))
    ensures ResultsOk(run.cfg, later, objects)
  {
    hide Sane, GoodResult, Extends;
    forall w | Saved(later, w) ensures GoodResult(run.cfg, objects, RowRequest(later, w), ResultDigest(later, w)) {
      if w != e.work {
        GoodStays(run.cfg, run.objects, objects, RowRequest(run.db, w), ResultDigest(run.db, w));
      }
    }
  }

  /** An item is as before, or was in flight and is uncertain. */
  predicate Interrupts(db: Db, later: Db, w: Id) {
    Current(later, w) == Current(db, w) || (InState(db, w, InFlight) && InState(later, w, Uncertain))
  }

  lemma Recovered(db: Db, later: Db)
    requires Healthy(db) && Recover(db) == Result.Ok(later)
    ensures Healthy(later) && SameTables(db, later)
    ensures forall w :: !InState(later, w, InFlight) && Interrupts(db, later, w)
  {
    hide Sane, Recover;
    RecoverAgrees(db);
    forall w ensures !InState(later, w, InFlight) && Interrupts(db, later, w) {
    }
  }

  /** Recovery is quiet: it turns in-flight items uncertain and touches nothing else. */
  lemma RecoverIsQuiet(run: Run, auth: Authority, later: Db)
    requires RunInv(run, auth) && Recover(run.db) == Result.Ok(later)
    ensures Quiet(run, later, run.objects)
  {
    hide Keeps, Recover, Sane, GoodResult, ObjectsOk, RequestsOk;
    InvHealthy(run, auth);
    InvResults(run, auth);
    Recovered(run.db, later);
    forall w | Saved(later, w) ensures GoodResult(run.cfg, run.objects, RowRequest(later, w), ResultDigest(later, w)) {
      assert Interrupts(run.db, later, w);
      assert Saved(run.db, w);
    }
    forall a | a in later.attempts ensures Dispatches(later, a) == Dispatches(run.db, a) {
      assert Interrupts(run.db, later, WorkOf(run.db, a));
    }
    forall w | InState(run.db, w, Completed) ensures Current(later, w) == Current(run.db, w) {
      assert Interrupts(run.db, later, w);
    }
  }

  /** After recovery no file of an item in flight may be unfilled. */
  lemma RecoverFiles(run: Run, auth: Authority, next: Run)
    requires RunInv(run, auth) && NoneTorn(run.receipts) && next.cfg == run.cfg && next.receipts == run.receipts
    requires next.objects == run.objects && Recover(run.db) == Result.Ok(next.db)
    ensures ReceiptsOk(next.cfg, next.db, next.objects, next.receipts)
  {
    hide Keeps, Extends, Sane, Recover;
    InvHealthy(run, auth);
    SameObjects(run, auth);
    Recovered(run.db, next.db);
    forall a | a in run.db.attempts ensures RowKept(run, next, a) {
      assert Interrupts(run.db, next.db, WorkOf(run.db, a));
    }
    ReceiptsKept(run, auth, next);
  }

  // ----- receipt files under change --------------------------------------------------------------------

  ghost predicate NoneTorn(receipts: Files) {
    forall f | f in receipts :: receipts[f].WholeFile?
  }

  /** Files are as before, or at least as well supported. */
  ghost predicate FilesKept(run: Run, next: Run) {
    && next.cfg == run.cfg && next.receipts == run.receipts && Extends(run.cfg, run.objects, next.objects)
    && next.db.retries == run.db.retries && next.db.reconciliations == run.db.reconciliations
    && (forall a | a in run.db.attempts ::
          a in next.db.attempts && next.db.attempts[a] == run.db.attempts[a] && RowKept(run, next, a))
    && (forall a | a in next.db.attempts && a !in run.db.attempts ::
          !Failing(next.db, next.db.attempts[a].work) && !Saved(next.db, next.db.attempts[a].work))
  }

  /** Dispatches do not go down, an unfilled file's item stays in flight, a failure has its file, a saved result
      stays. */
  predicate RowKept(run: Run, next: Run, a: Id) {
    var w, slot := WorkOf(run.db, a), Slot(run.db, a);
    && Dispatches(next.db, a) >= Dispatches(run.db, a)
    && ((slot in run.receipts && run.receipts[slot].TornFile?) ==> InState(next.db, w, InFlight))
    && (Failing(next.db, w) ==> Failing(run.db, w) || slot in run.receipts)
    && (Saved(next.db, w) ==> Saved(run.db, w) || slot !in run.receipts)
    && (Saved(run.db, w) ==> Saved(next.db, w) && ResultDigest(next.db, w) == ResultDigest(run.db, w))
  }

  lemma FileKept(run: Run, next: Run, f: (Id, bool))
    requires FilesKept(run, next) && f in run.receipts && FileOk(run.cfg, run.db, run.objects, run.receipts, f)
    ensures FileOk(next.cfg, next.db, next.objects, next.receipts, f)
  {
    hide Extends, Dispatches, InState, OutcomeOk;
    assert RowKept(run, next, f.0);
    if run.receipts[f].WholeFile? {
      OutcomeStays(run.cfg, run.objects, next.objects, run.receipts[f].request, run.receipts[f].native);
    }
  }

  lemma ReconciledKept(run: Run, next: Run, a: Id)
    requires FilesKept(run, next) && a in run.db.reconciliations
    requires ReconciledOk(run.cfg, run.db, run.objects, run.receipts, a)
    ensures ReconciledOk(next.cfg, next.db, next.objects, next.receipts, a)
  {
    hide Dispatches, InState, Restoration, ResultDigest;
    assert RowKept(run, next, a);
  }

  lemma ReceiptsKept(run: Run, auth: Authority, next: Run)
    requires RunInv(run, auth) && FilesKept(run, next)
    ensures ReceiptsOk(next.cfg, next.db, next.objects, next.receipts)
  {
    hide Keeps, ReceiptsOk, FilesKept;
    InvReceipts(run, auth);
    AllFilesKept(run, next);
  }

  lemma AllFilesKept(run: Run, next: Run)
    requires FilesKept(run, next) && ReceiptsOk(run.cfg, run.db, run.objects, run.receipts)
    ensures ReceiptsOk(next.cfg, next.db, next.objects, next.receipts)
  {
    KeptTables(run, next);
    hide FilesKept, FileOk, RetryOk, ReconciledOk, Names, Failing, Saved, Slot;
    forall f | f in next.receipts ensures FileOk(next.cfg, next.db, next.objects, next.receipts, f) {
      FileKept(run, next, f);
    }
    forall a | a in next.db.retries ensures RetryOk(next.cfg, next.db, next.objects, next.receipts, a) {
    }
    forall a | a in next.db.reconciliations ensures ReconciledOk(next.cfg, next.db, next.objects, next.receipts, a) {
      ReconciledKept(run, next, a);
    }
    forall a | a in next.db.attempts && Failing(next.db, next.db.attempts[a].work)
      ensures Slot(next.db, a) in next.receipts
    {
      FailureKept(run, next, a);
    }
    forall a | a in next.db.attempts && Saved(next.db, next.db.attempts[a].work) && Slot(next.db, a) in next.receipts
      ensures a in next.db.reconciliations
    {
      SaveKept(run, next, a);
    }
  }

  lemma SaveKept(run: Run, next: Run, a: Id)
    requires FilesKept(run, next) && SavesOk(run.db, run.receipts)
    requires a in next.db.attempts && Saved(next.db, WorkOf(next.db, a)) && Slot(next.db, a) in next.receipts
    ensures a in next.db.reconciliations
  {
    hide Extends, Dispatches, Saved, Failing;
    assert RowKept(run, next, a);
  }

  lemma KeptTables(run: Run, next: Run)
    requires FilesKept(run, next)
    ensures next.receipts == run.receipts
    ensures next.db.retries == run.db.retries && next.db.reconciliations == run.db.reconciliations
  {
  }

  lemma FailureKept(run: Run, next: Run, a: Id)
    requires FilesKept(run, next) && FailuresOk(run.db, run.receipts)
    requires a in next.db.attempts && Failing(next.db, WorkOf(next.db, a))
    ensures Slot(next.db, a) in next.receipts
  {
    hide Extends, Dispatches, Failing;
    assert RowKept(run, next, a);
  }

  /** Unfilled files are the present files of items in flight. */
  lemma TornIsInFlight(run: Run, auth: Authority, f: (Id, bool))
    requires RunInv(run, auth) && FileAt(run.receipts, f) == Some(TornFile)
    ensures f.0 in run.db.attempts && InState(run.db, WorkOf(run.db, f.0), InFlight) && f == Slot(run.db, f.0)
  {
    hide Keeps, Dispatches, InState;
    InvReceipts(run, auth);
    assert FileOk(run.cfg, run.db, run.objects, run.receipts, f);
  }

  /** With nothing in flight, or its item's file not created, no file is unfilled. */
  lemma NothingTorn(run: Run, auth: Authority)
    requires RunInv(run, auth) && Driving(run.pc) && !run.pc.Opened?
    ensures NoneTorn(run.receipts)
  {
    hide Keeps, ReceiptsOk, Sane;
    InvReceipts(run, auth);
    InvTables(run, auth);
    InvHealthy(run, auth);
    forall f | f in run.receipts ensures run.receipts[f].WholeFile? {
      if run.receipts[f].TornFile? {
        TornIsInFlight(run, auth, f);
        SameWork(run.db, f.0, PcAttempt(run.pc));
      }
    }
  }

  /** Same tables, same files. */
  lemma FilesStay(run: Run, auth: Authority, next: Run)
    requires RunInv(run, auth) && next.cfg == run.cfg && next.db == run.db && next.receipts == run.receipts
    requires Extends(run.cfg, run.objects, next.objects)
    ensures ReceiptsOk(next.cfg, next.db, next.objects, next.receipts)
  {
    hide Keeps, RowKept, Extends;
    forall a | a in run.db.attempts ensures RowKept(run, next, a) {
      RowStays(run, auth, next, a);
    }
    ReceiptsKept(run, auth, next);
  }

  lemma RowStays(run: Run, auth: Authority, next: Run, a: Id)
    requires RunInv(run, auth) && next.db == run.db && a in run.db.attempts
    ensures RowKept(run, next, a)
  {
    hide Keeps, Dispatches, InState, ResultDigest;
    if Slot(run.db, a) in run.receipts && run.receipts[Slot(run.db, a)].TornFile? {
      TornIsInFlight(run, auth, Slot(run.db, a));
    }
  }

  /** One event outside reservations: no unfilled file of its item, a failure has its file, a saved result stays. */
  lemma EventFiles(run: Run, auth: Authority, next: Run, e: Event)
    requires RunInv(run, auth) && next.cfg == run.cfg && next.receipts == run.receipts
    requires Extends(run.cfg, run.objects, next.objects) && Moved(run.db, next.db, e)
    requires next.db.retries == run.db.retries && next.db.reconciliations == run.db.reconciliations
    requires e.state != Reserved && (InState(run.db, e.work, InFlight) ==> NoneTorn(run.receipts))
    requires (e.state == Failed || e.state == Limited) ==>
      forall a | a in run.db.attempts && WorkOf(run.db, a) == e.work :: Slot(run.db, a) in run.receipts
    requires Saved(run.db, e.work) ==>
      e.state == Completed && ResultDigest(next.db, e.work) == ResultDigest(run.db, e.work)
    requires e.state == Completed ==> Saved(run.db, e.work)
    requires e.state == ResultSaved ==>
      forall a | a in run.db.attempts && WorkOf(run.db, a) == e.work :: Slot(run.db, a) !in run.receipts
    ensures ReceiptsOk(next.cfg, next.db, next.objects, next.receipts)
  {
    hide Keeps, RowKept, Extends, Sane;
    forall a | a in run.db.attempts ensures RowKept(run, next, a) {
      EventRowKept(run, auth, next, e, a);
    }
    ReceiptsKept(run, auth, next);
  }

  lemma EventRowKept(run: Run, auth: Authority, next: Run, e: Event, a: Id)
    requires RunInv(run, auth) && a in run.db.attempts && Moved(run.db, next.db, e)
    requires next.db.retries == run.db.retries
    requires e.state != Reserved && (InState(run.db, e.work, InFlight) ==> NoneTorn(run.receipts))
    requires (e.state == Failed || e.state == Limited) ==>
      forall a | a in run.db.attempts && WorkOf(run.db, a) == e.work :: Slot(run.db, a) in run.receipts
    requires Saved(run.db, e.work) ==>
      e.state == Completed && ResultDigest(next.db, e.work) == ResultDigest(run.db, e.work)
    requires e.state == Completed ==> Saved(run.db, e.work)
    requires e.state == ResultSaved ==>
      forall a | a in run.db.attempts && WorkOf(run.db, a) == e.work :: Slot(run.db, a) !in run.receipts
    ensures RowKept(run, next, a)
  {
    hide Keeps, Sane, Dispatches;
    DispatchesMoved(run.db, next.db, e, a);
    var slot := Slot(run.db, a);
    if slot in run.receipts && run.receipts[slot].TornFile? {
      TornIsInFlight(run, auth, slot);
    }
  }
}
