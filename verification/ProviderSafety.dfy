/**
 Every step of a provider run keeps its invariant, with crashes, resumes, retries and
 reconciliations in any order: no attempt is called more often than the ledger shows
 it dispatched, none is called without its campaign reservation, and a resumed
 attempt keeps its request and is never charged again.
 */
module ProviderSafety {
  import opened Wrappers
  import opened Plans
  import opened LedgerTables
  import opened LedgerOps
  import opened LedgerSoundness
  import opened LedgerMoves
  import opened LedgerRuns
  import opened Campaign
  import opened Policies
  import opened ProviderRun
  import opened ProviderInvariant
  import opened ProviderChanges

  // ----- resuming and stopping ------------------------------------------------------------

  /** What the check of everything saved passes has no unfilled receipt. */
  lemma ReportedIsWhole(run: Run, auth: Authority)
    requires RunInv(run, auth) && Reports(run)
    ensures NoneTorn(run.receipts)
  {
    hide Keeps, Reports;
    forall f | f in run.receipts ensures run.receipts[f].WholeFile? {
      if FileAt(run.receipts, f) == Some(TornFile) {
        TornFailsReport(run, auth, f);
      }
    }
  }

  lemma TornRow(run: Run, row: Row, a: Id)
    requires Current(run.db, row.work).Some? && RowOf(run.db, row.work).request.Some?
    requires RowOf(run.db, row.work).attempt == Some(a) && FileAt(run.receipts, Slot(run.db, a)) == Some(TornFile)
    ensures !RowReports(run, row)
  {
    hide RequestReports, RetryReports, GoodResult, EvidenceReports, Current, Bound;
  }

  lemma TornFailsReport(run: Run, auth: Authority, f: (Id, bool))
    requires RunInv(run, auth) && FileAt(run.receipts, f) == Some(TornFile)
    ensures !Reports(run)
  {
    hide Keeps, Sane, RowReports, StoredRequest;
    TornIsInFlight(run, auth, f);
    InvHealthy(run, auth);
    RowRequestIs(run, auth, WorkOf(run.db, f.0));
    var k := AttemptPosition(run, auth, f.0);
    SameWork(run.db, f.0, AttemptOn(run.db, WorkOf(run.db, f.0)));
    TornRow(run, run.cfg.plan[k], f.0);
  }

  lemma AttemptPosition(run: Run, auth: Authority, a: Id) returns (k: nat)
    requires RunInv(run, auth) && a in run.db.attempts
    ensures k < |run.cfg.plan| && RequestAtRow(run, k, a)
  {
    hide Keeps, StoredRequest;
    InvResults(run, auth);
    assert RequestOk(run, a);
    k :| RequestAtRow(run, k, a);
  }

  /** The state row of an attempt's item names the attempt and its request. */
  lemma RowNames(run: Run, auth: Authority, a: Id, state: State)
    requires RunInv(run, auth) && a in run.db.attempts && InState(run.db, WorkOf(run.db, a), state)
    requires BeyondReservation(state)
    ensures RowOf(run.db, WorkOf(run.db, a)).attempt == Some(a)
    ensures RowOf(run.db, WorkOf(run.db, a)).request == Some(RequestOf(run.db, a))
  {
    hide Keeps, Sane;
    RowRequestIs(run, auth, WorkOf(run.db, a));
    InvHealthy(run, auth);
    SameWork(run.db, a, AttemptOn(run.db, WorkOf(run.db, a)));
  }

  /** The frame of a step that leaves the ledger alone. */
  lemma SameKeeps(run: Run, auth: Authority, next: Run)
    requires RunInv(run, auth) && next.cfg == run.cfg && next.db == run.db && next.invoked == run.invoked
    requires Extends(run.cfg, run.objects, next.objects) && PlaceOk(next, auth) && Progress(run, next)
    ensures RunInv(next, auth) && Changes(run, next, {})
  {
    hide Keeps, Quiet, PlaceOk, TablesMove, Progress;
    StoreIsQuiet(run, auth, next.objects);
    QuietKeeps(run, auth, next);
    StillTables(run, next.db);
  }

  lemma ResumeKeeps(run: Run, auth: Authority, next: Run)
    requires RunInv(run, auth) && DoResume(run) == Some(next)
    ensures RunInv(next, auth) && Changes(run, next, {})
  {
    hide Keeps, Sane, Recover, Quiet, Reports, Extends, ReceiptsOk, TablesMove;
    ReportedIsWhole(run, auth);
    RecoverKeeps(run, auth, next);
  }

  /** A recovery, when resuming or after an uncertain outcome. */
  lemma RecoverKeeps(run: Run, auth: Authority, next: Run)
    requires RunInv(run, auth) && NoneTorn(run.receipts) && Recover(run.db) == Result.Ok(next.db) && next.pc.At?
    requires next == run.(db := next.db, pc := next.pc)
    ensures RunInv(next, auth) && TablesMove(run, next.db, {})
  {
    hide Keeps, Sane, Recover, Quiet, Extends, ReceiptsOk, TablesMove, NoneTorn;
    InvHealthy(run, auth);
    Recovered(run.db, next.db);
    RecoverIsQuiet(run, auth, next.db);
    SameObjects(run, auth);
    RecoverFiles(run, auth, next);
    QuietKeeps(run, auth, next);
    RecoverTables(run, auth, next.db);
  }

  lemma IdleInFlight(run: Run, auth: Authority)
    requires RunInv(run, auth)
    ensures InFlightOk(run.db, Idle)
  {
    hide Keeps, CallsOk, FundsOk;
    InvTables(run, auth);
  }

  lemma StopKeeps(run: Run, auth: Authority, left: Remnant)
    requires RunInv(run, auth)
    ensures RunInv(DoStop(run, left), auth) && Changes(run, DoStop(run, left), {})
  {
    hide Keeps, Sane, ReceiptsOk, Extends, Filled, InFlightOk, Changes;
    var next := DoStop(run, left);
    SameObjects(run, auth);
    IdleInFlight(run, auth);
    if run.pc.Opened? && left.Whole? {
      FilledFiles(run, auth, next);
    } else if run.pc.Opened? && left.Gone? {
      GoneFiles(run, auth, next);
    } else {
      FilesStay(run, auth, next);
    }
    SameKeeps(run, auth, next);
  }

  /** Only the file `slot` is different, and it is the present one of an item in flight. */
  ghost predicate SlotChanged(run: Run, next: Run, slot: (Id, bool)) {
    && next.cfg == run.cfg && next.db == run.db && next.objects == run.objects
    && (forall f | f != slot :: f in next.receipts <==> f in run.receipts)
    && (forall f | f != slot && f in run.receipts :: next.receipts[f] == run.receipts[f])
    && slot.0 in run.db.attempts && InState(run.db, run.db.attempts[slot.0].work, InFlight)
    && slot == Slot(run.db, slot.0)
  }

  /** The file of an item in flight is nobody's evidence yet. */
  lemma SlotIsFree(run: Run, next: Run, slot: (Id, bool))
    requires SlotChanged(run, next, slot) && ReceiptsOk(run.cfg, run.db, run.objects, run.receipts)
    ensures RetriesOk(next.cfg, next.db, next.objects, next.receipts) && FailuresOk(next.db, next.receipts)
    ensures SavesOk(next.db, next.receipts)
    ensures ReconciliationsOk(next.cfg, next.db, next.objects, next.receipts)
  {
    hide FileOk, Restores, ResultDigest, Unsent;
    forall a | a in run.db.retries ensures RetryOk(next.cfg, next.db, next.objects, next.receipts, a) {
      assert RetryOk(run.cfg, run.db, run.objects, run.receipts, a);
      assert (a, false) != slot;
    }
    forall a | a in run.db.reconciliations ensures ReconciledOk(next.cfg, next.db, next.objects, next.receipts, a) {
      assert ReconciledOk(run.cfg, run.db, run.objects, run.receipts, a);
      assert Slot(run.db, a) != slot;
    }
  }

  lemma SlotChangeKeeps(run: Run, auth: Authority, next: Run, slot: (Id, bool))
    requires RunInv(run, auth) && SlotChanged(run, next, slot)
    requires slot in next.receipts ==> FileOk(next.cfg, next.db, next.objects, next.receipts, slot)
    ensures ReceiptsOk(next.cfg, next.db, next.objects, next.receipts)
  {
    hide Keeps, RetriesOk, FailuresOk, ReconciliationsOk, SavesOk;
    InvReceipts(run, auth);
    SlotIsFree(run, next, slot);
    hide OutcomeOk, Dispatches, InState;
    forall f | f in next.receipts ensures FileOk(next.cfg, next.db, next.objects, next.receipts, f) {
      if f != slot {
        assert FileOk(run.cfg, run.db, run.objects, run.receipts, f);
      }
    }
  }

  /** The file at hand, written: it names a stored outcome bound to the attempt's request. */
  lemma FilledFiles(run: Run, auth: Authority, next: Run)
    requires RunInv(run, auth) && run.pc.Opened? && next.cfg == run.cfg && next.db == run.db
    requires next.objects == run.objects && next.receipts == Filled(run)
    ensures ReceiptsOk(next.cfg, next.db, next.objects, next.receipts)
  {
    hide Keeps, Sane, Bound, Estimate, BuiltOk, Dispatches, ReceiptsOk, InState;
    InvCarried(run, auth);
    PlaceSays(run, auth);
    ActiveIsDispatched(run, auth);
    SlotChangeKeeps(run, auth, next, Slot(run.db, run.pc.a));
  }

  /** An attempt whose call is under way was dispatched, under its present name. */
  lemma ActiveIsDispatched(run: Run, auth: Authority)
    requires RunInv(run, auth) && Active(run.pc).Some?
    ensures PcAttempt(run.pc) in run.db.attempts
    ensures Dispatches(run.db, PcAttempt(run.pc)) >= 1 + One(PcAttempt(run.pc) in run.db.retries)
  {
    hide Keeps, Sane;
    PlaceSays(run, auth);
  }

  /** A vanished file was nobody's evidence: its item is in flight. */
  lemma GoneFiles(run: Run, auth: Authority, next: Run)
    requires RunInv(run, auth) && run.pc.Opened? && next.cfg == run.cfg && next.db == run.db
    requires next.objects == run.objects && next.receipts == run.receipts - {Slot(run.db, PcAttempt(run.pc))}
    ensures ReceiptsOk(next.cfg, next.db, next.objects, next.receipts)
  {
    hide Keeps, Sane, Dispatches, ReceiptsOk, InState;
    PlaceSays(run, auth);
    SlotChangeKeeps(run, auth, next, Slot(run.db, run.pc.a));
  }

  // ----- going through the rows ---------------------------------------------------------------

  lemma NoneInFlight(run: Run, auth: Authority)
    requires RunInv(run, auth) && Active(run.pc).None? && Driving(run.pc)
    ensures forall w :: !InState(run.db, w, InFlight)
  {
    hide Keeps, CallsOk, FundsOk, InState;
    InvTables(run, auth);
  }

  /** Completing a saved result keeps its request and digest. */
  lemma CompletionKeepsResult(db: Db, a: Id)
    requires Healthy(db) && CompleteAttempt(db, a).Ok?
    ensures a in db.attempts && InState(db, WorkOf(db, a), ResultSaved)
    ensures var later, e := CompleteAttempt(db, a).value, MoveRow(db, a, Completed, None, None);
      && Moved(db, later, e) && later.retries == db.retries && later.reconciliations == db.reconciliations
      && e.work == WorkOf(db, a) && e.state == Completed
      && ResultDigest(later, e.work) == ResultDigest(db, e.work) && RowRequest(later, e.work) == RowRequest(db, e.work)
  {
    hide Sane, Transition;
    TransitionMoves(db, a, ResultSaved, Completed, None, None);
  }

  lemma SavedIsGood(run: Run, auth: Authority, w: Id)
    requires RunInv(run, auth) && Saved(run.db, w)
    ensures GoodResult(run.cfg, run.objects, RowRequest(run.db, w), ResultDigest(run.db, w))
  {
    hide Keeps, GoodResult;
    InvResults(run, auth);
  }

  /** One completion, from inside the loop or at the end of a reconciliation. */
  lemma CompleteKeeps(run: Run, auth: Authority, a: Id, next: Run)
    requires RunInv(run, auth) && CompleteAttempt(run.db, a) == Result.Ok(next.db)
    requires next == run.(db := next.db, pc := next.pc)
    requires (next.pc.At? && Active(run.pc).None? && Driving(run.pc)) || (next.pc.Idle? && run.pc.Reconciled?)
    ensures RunInv(next, auth) && TablesMove(run, next.db, {})
    ensures a in run.db.attempts && InState(next.db, WorkOf(run.db, a), Completed)
  {
    hide Keeps, Sane, CompleteAttempt, GoodResult, Extends, Quiet, ReceiptsOk, ResultDigest, RowRequest, TablesMove;
    InvHealthy(run, auth);
    CompletionKeepsResult(run.db, a);
    var later, e := next.db, MoveRow(run.db, a, Completed, None, None);
    SameObjects(run, auth);
    SavedIsGood(run, auth, e.work);
    RowNames(run, auth, a, ResultSaved);
    EventIsQuiet(run, auth, later, e, run.objects);
    EventFiles(run, auth, next, e);
    CompletedInFlight(run, auth, later, e, next.pc);
    QuietKeeps(run, auth, next);
    AttemptTables(run, later, a, e);
  }

  lemma CompletedInFlight(run: Run, auth: Authority, later: Db, e: Event, pc: Pc)
    requires RunInv(run, auth) && Moved(run.db, later, e) && e.state == Completed
    requires (pc.At? && Active(run.pc).None? && Driving(run.pc)) || (pc.Idle? && run.pc.Reconciled?)
    ensures InFlightOk(later, pc)
  {
    hide Keeps, Sane, CallsOk, FundsOk;
    InvTables(run, auth);
    assert forall w :: InState(later, w, InFlight) ==> InState(run.db, w, InFlight);
  }

  lemma SkipKeeps(run: Run, auth: Authority, w: Id, state: State, code: Code, next: Run)
    requires RunInv(run, auth) && run.pc.At? && next.pc.At? && Skip(run.db, w, state, code) == Result.Ok(next.db)
    requires next == run.(db := next.db, pc := next.pc) && AtHand(run, w)
    requires state == Unavailable ==> !HasInput(run, PlanRow(run, PcRow(run.pc)))
    requires state == Blocked ==> !DepsCompleted(run.db, w)
    ensures RunInv(next, auth) && TablesMove(run, next.db, {}) && Settled(next.db, w)
  {
    hide Keeps, Sane, Skip, GoodResult, Extends, Quiet, ReceiptsOk, TablesMove, DepsCompleted;
    InvHealthy(run, auth);
    SkipMoves(run.db, w, state, code);
    NoneInFlight(run, auth);
    var e := Event(NextId(run.db.events), w, state, None, None, None, Some(code));
    NoneInFlightAfter(run.db, next.db, e);
    SameObjects(run, auth);
    EventIsQuiet(run, auth, next.db, e, run.objects);
    EventFiles(run, auth, next, e);
    QuietKeeps(run, auth, next);
    SkipTables(run, next.db, e);
  }

  lemma PassOverKeeps(run: Run, auth: Authority, k: nat)
    requires RunInv(run, auth) && run.pc.At? && Progress(run, run.(pc := At(k)))
    ensures RunInv(run.(pc := At(k)), auth) && Changes(run, run.(pc := At(k)), {})
  {
    hide Keeps, Sane, Extends, ReceiptsOk, Progress, Changes;
    SameObjects(run, auth);
    NoneInFlight(run, auth);
    FilesStay(run, auth, run.(pc := At(k)));
    SameKeeps(run, auth, run.(pc := At(k)));
  }

  lemma VisitKeeps(run: Run, auth: Authority, next: Run)
    requires RunInv(run, auth) && DoVisit(run) == Some(next)
    ensures RunInv(next, auth) && Changes(run, next, {})
  {
    hide Keeps, CompleteAttempt, Skip, DepsCompleted, TablesMove;
    var row, k := PlanRow(run, run.pc.k), run.pc.k + 1;
    var c := Current(run.db, row.work).value;
    if c.state == ResultSaved {
      RowRequestIs(run, auth, row.work);
      CompleteKeeps(run, auth, c.attempt.value, next);
    } else if c.state != Planned && c.state != Reserved {
      NoneInFlight(run, auth);
      assert !InState(run.db, row.work, InFlight);
      PassOverKeeps(run, auth, k);
    } else if !HasInput(run, row) {
      SkipKeeps(run, auth, row.work, Unavailable, InputUnknown, next);
    } else {
      SkipKeeps(run, auth, row.work, Blocked, Code.DependencyUnresolved, next);
    }
  }

  // ----- building a request -----------------------------------------------------------------------

  /** Whatever revision input is passed on a resume, an attempt's request is rebuilt to the stored digest. */
  lemma RebuiltRequestIsIdentical(run: Run, auth: Authority, a: Id, k: nat, revisionInput: Option<External>)
    requires RunInv(run, auth) && a in run.db.attempts
    requires k < |run.cfg.plan| && PlanRow(run, k).work == WorkOf(run.db, a)
    ensures var row, external := PlanRow(run, k), SavedExternal(run, RequestOf(run.db, a));
      && (row.role == Revision ==> external.Some?)
      && run.cfg.hash(EnvelopeBlob(Build(run, row, external))) == RequestOf(run.db, a)
      && run.cfg.prompt(row, Build(run, row, external)).Some?
      && HasInput(run, row) && DepsCompleted(run.db, row.work)
      && Stores(run.objects, RequestOf(run.db, a), EnvelopeBlob(Build(run, row, external)))
  {
    hide Keeps, Sane, ResultsOk, Build, DepsCompleted;
    InvHealthy(run, auth);
    InvResults(run, auth);
    var j := AttemptPosition(run, auth, a);
    var digest := RequestOf(run.db, a);
    assert j == k;
    assert run.cfg.hash(run.objects[digest]) == digest;
  }

  /** Equal request digests mean equal custody: the same row and input, and for every dependency the same result
      and output. */
  lemma RequestBindsCustody(run: Run, other: Run, row: Row, row': Row, external: Option<External>,
                            external': Option<External>)
    requires ValidConfig(run.cfg) && other.cfg == run.cfg
    requires run.cfg.hash(EnvelopeBlob(Build(run, row, external))) ==
      run.cfg.hash(EnvelopeBlob(Build(other, row', external')))
    ensures row.work == row'.work && row.role == row'.role && (row.role == Revision ==> external == external')
    ensures forall d :: d in row.deps <==> d in row'.deps
    ensures forall d | d in row.deps ::
      && ResultDigest(run.db, d) == ResultDigest(other.db, d)
      && OutputOf(run.objects, ResultDigest(run.db, d)) == OutputOf(other.objects, ResultDigest(other.db, d))
  {
    var x, y := Build(run, row, external), Build(other, row', external');
    assert EnvelopeBlob(x) == EnvelopeBlob(y);
    forall d ensures d in row.deps <==> d in row'.deps {
      assert d in x.parents <==> d in y.parents;
    }
    forall d | d in row.deps
      ensures ResultDigest(run.db, d) == ResultDigest(other.db, d)
      ensures OutputOf(run.objects, ResultDigest(run.db, d)) == OutputOf(other.objects, ResultDigest(other.db, d))
    {
      assert x.parents[d] == y.parents[d] && x.outputs[d] == y.outputs[d];
    }
  }

  /** The row of a reserved item carries its attempt, whose request is what would be built now. */
  lemma ReservedRowIs(run: Run, auth: Authority, k: nat, revisionInput: Option<External>)
    requires RunInv(run, auth) && k < |run.cfg.plan| && InState(run.db, PlanRow(run, k).work, Reserved)
    ensures var w, a := PlanRow(run, k).work, AttemptOn(run.db, PlanRow(run, k).work);
      && RowOf(run.db, w).attempt == Some(a) && a in run.db.attempts && WorkOf(run.db, a) == w
      && RowOf(run.db, w).request == Some(RequestOf(run.db, a))
      && RequestOf(run.db, a) == run.cfg.hash(EnvelopeBlob(RequestAt(run, k, revisionInput)))
    ensures run.cfg.prompt(PlanRow(run, k), RequestAt(run, k, revisionInput)).Some?
    ensures !Awaits(run, k, revisionInput) && NeedsCall(run, k)
  {
    hide Keeps, Build, SavedExternal, DepsCompleted;
    RowRequestIs(run, auth, PlanRow(run, k).work);
    RebuiltRequestIsIdentical(run, auth, AttemptOn(run.db, PlanRow(run, k).work), k, revisionInput);
  }

  /** Once reserved, an item's prompt is never refused again, whatever revision input is passed. */
  lemma ReservedIsPromptable(run: Run, auth: Authority, k: nat, revisionInput: Option<External>)
    requires RunInv(run, auth) && k < |run.cfg.plan| && InState(run.db, PlanRow(run, k).work, Reserved)
    ensures !Unpromptable(run, k, revisionInput)
  {
    hide Keeps, RequestAt, NeedsCall, Awaits;
    ReservedRowIs(run, auth, k, revisionInput);
  }

  lemma PlannedHasNoRequest(run: Run, auth: Authority, w: Id)
    requires RunInv(run, auth) && InState(run.db, w, Planned)
    ensures RowOf(run.db, w).request.None? && RowOf(run.db, w).attempt.None?
  {
    hide Keeps;
    InvHealthy(run, auth);
    HealthySays(run.db);
    CurrentAttempt(run.db, w);
  }

  /** The request just built is the one the store keeps, and it fits its row. */
  lemma JustBuilt(run: Run, auth: Authority, revisionInput: Option<External>)
    requires RunInv(run, auth) && DoPrepare(run, revisionInput).Ready?
    ensures var k, row := PcRow(run.pc), PlanRow(run, PcRow(run.pc)); var env := RequestAt(run, k, revisionInput);
      && BuiltAt(run, k, env) && HoldableRow(run.db, row.work, run.cfg.hash(EnvelopeBlob(env)))
  {
    var k, row := run.pc.k, PlanRow(run, run.pc.k);
    hide Keeps, DepsCompleted;
    if InState(run.db, row.work, Planned) {
      PlannedHasNoRequest(run, auth, row.work);
    } else {
      ReservedRowIs(run, auth, k, revisionInput);
    }
  }

  lemma PrepareKeeps(run: Run, auth: Authority, revisionInput: Option<External>, next: Run)
    requires RunInv(run, auth) && DoPrepare(run, revisionInput) == Ready(next)
    ensures RunInv(next, auth) && Changes(run, next, {})
  {
    hide Keeps, Sane, Put, RequestAt, NeedsCall, Awaits, BuiltAt, Quiet, Extends, ReceiptsOk, HoldableRow, Changes;
    var k := run.pc.k;
    var blob := EnvelopeBlob(RequestAt(run, k, revisionInput));
    JustBuilt(run, auth, revisionInput);
    PutGrows(run, auth, blob);
    NoneInFlight(run, auth);
    FilesStay(run, auth, next);
    StoreIsQuiet(run, auth, next.objects);
    QuietPreserves(run, auth, next);
    BuiltSurvives(run, next, k, blob.envelope);
    SameKeeps(run, auth, next);
  }

  // ----- reserving it -------------------------------------------------------------------------------

  lemma AdoptKeeps(run: Run, auth: Authority, a: Id, next: Run)
    requires RunInv(run, auth) && run.pc.Built? && PcRow(run.pc) < |run.cfg.plan|
    requires next == run.(pc := Held(PcRow(run.pc), a))
    requires a in run.db.attempts && WorkOf(run.db, a) == PlanRow(run, PcRow(run.pc)).work
    requires InState(run.db, PlanRow(run, PcRow(run.pc)).work, Reserved)
    ensures RunInv(next, auth) && Changes(run, next, {})
  {
    hide Keeps, Sane, Extends, ReceiptsOk, Changes;
    SameObjects(run, auth);
    NoneInFlight(run, auth);
    FilesStay(run, auth, next);
    SameKeeps(run, auth, next);
  }

  /** The ledger after a reservation that succeeded. */
  ghost predicate NewAttempt(run: Run, later: Db, uuid: Id) {
    && run.pc.Built? && PcRow(run.pc) < |run.cfg.plan| && uuid !in run.db.attempts
    && Healthy(later) && later.plan == run.db.plan && later.retries == run.db.retries
    && later.reconciliations == run.db.reconciliations
    && var w := PlanRow(run, PcRow(run.pc)).work;
      && later.attempts == run.db.attempts[uuid := Attempt(w, PcRequest(run.pc))]
      && InState(run.db, w, Planned) && InState(later, w, Reserved) && uuid !in run.db.retries
      && (forall v | v != w :: Current(later, v) == Current(run.db, v))
      && (forall b | b in run.db.attempts :: WorkOf(run.db, b) != w)
  }

  lemma ReserveGives(run: Run, auth: Authority, uuid: Id, next: Run)
    requires RunInv(run, auth) && run.pc.Built? && PcRow(run.pc) < |run.cfg.plan|
    requires InState(run.db, PlanRow(run, PcRow(run.pc)).work, Planned) && DoHold(run, uuid) == Holds(next)
    ensures NewAttempt(run, next.db, uuid)
    ensures next == run.(db := next.db, pc := Held(PcRow(run.pc), uuid))
  {
    hide Keeps, Sane, LedgerOps.Reserve, Admits, DepsCompleted;
    InvHealthy(run, auth);
    var w := PlanRow(run, run.pc.k).work;
    ReserveMoves(run.db, w, run.pc.request, uuid, (n: nat) => Admits(run.cfg.policy, n));
    if uuid in run.db.retries {
      RetriesAreAttempts(run.db, uuid);
    }
  }

  /** The new attempt has not been dispatched or called; all others are as before. */
  lemma ReserveDispatches(run: Run, later: Db, uuid: Id)
    requires NewAttempt(run, later, uuid)
    ensures forall b :: Dispatches(later, b) == Dispatches(run.db, b)
    ensures Dispatches(later, uuid) == 0
  {
    hide Sane;
    forall b ensures Dispatches(later, b) == Dispatches(run.db, b) {
    }
  }

  lemma ReservedResults(run: Run, auth: Authority, later: Db, uuid: Id)
    requires RunInv(run, auth) && NewAttempt(run, later, uuid)
    ensures ResultsOk(run.cfg, later, run.objects)
  {
    hide Keeps, Sane, GoodResult;
    InvResults(run, auth);
    forall w | Saved(later, w) ensures GoodResult(run.cfg, run.objects, RowRequest(later, w), ResultDigest(later, w)) {
      assert Saved(run.db, w);
    }
  }

  lemma ReservedTables(run: Run, auth: Authority, later: Db, uuid: Id, pc: Pc)
    requires RunInv(run, auth) && NewAttempt(run, later, uuid) && uuid !in auth.reservations && pc.Held?
    ensures CallsOk(later, run.invoked, pc) && FundsOk(run.cfg, later, auth, pc)
  {
    hide Keeps, Sane, Granted, Dispatches, InFlightOk;
    InvTables(run, auth);
    ReserveDispatches(run, later, uuid);
    forall a ensures Calls(run.invoked, a) <= Dispatches(later, a) {
      assert Calls(run.invoked, a) + Spare(run.pc, a) <= Dispatches(run.db, a);
    }
    forall a | a in run.db.attempts ensures Charged(run.cfg, later, auth, a) == Charged(run.cfg, run.db, auth, a) {
    }
  }

  lemma ReservedFiles(run: Run, auth: Authority, next: Run, uuid: Id)
    requires RunInv(run, auth) && NewAttempt(run, next.db, uuid)
    requires next.cfg == run.cfg && next.objects == run.objects && next.receipts == run.receipts
    ensures ReceiptsOk(next.cfg, next.db, next.objects, next.receipts)
  {
    hide Keeps, Sane, Extends, Dispatches;
    SameObjects(run, auth);
    ReserveDispatches(run, next.db, uuid);
    forall a | a in run.db.attempts ensures RowKept(run, next, a) {
      if Slot(run.db, a) in run.receipts && run.receipts[Slot(run.db, a)].TornFile? {
        TornIsInFlight(run, auth, Slot(run.db, a));
      }
    }
    ReceiptsKept(run, auth, next);
  }

  /** The new attempt's request is the one built just before. */
  lemma ReservedRequests(run: Run, auth: Authority, next: Run, uuid: Id)
    requires RunInv(run, auth) && NewAttempt(run, next.db, uuid) && next.cfg == run.cfg && next.objects == run.objects
    ensures RequestsOk(next)
  {
    hide Keeps, Sane, StoredRequest, Preserves, CarriedOk, ResultsOk, RequestOk;
    InvCarried(run, auth);
    InvResults(run, auth);
    ReservedPreserves(run, auth, next, uuid);
    StoredSurvives(run, next, run.pc.k, run.pc.request);
    forall a | a in next.db.attempts ensures RequestOk(next, a) {
      if a == uuid {
        NewRequestOk(next, run.pc.k, uuid);
      } else {
        RequestSurvives(run, next, a);
      }
    }
  }

  lemma NewRequestOk(next: Run, k: nat, a: Id)
    requires a in next.db.attempts && k < |next.cfg.plan| && RequestAtRow(next, k, a)
    ensures RequestOk(next, a)
  {
    hide RequestAtRow;
  }

  lemma ReservedPreserves(run: Run, auth: Authority, next: Run, uuid: Id)
    requires RunInv(run, auth) && NewAttempt(run, next.db, uuid) && next.cfg == run.cfg && next.objects == run.objects
    ensures Preserves(run, next)
  {
    hide Keeps, Sane, ResultsOk, ValidPolicy;
    InvHealthy(run, auth);
    InvResults(run, auth);
  }

  lemma ReservedPlace(run: Run, auth: Authority, later: Db, uuid: Id, pc: Pc)
    requires RunInv(run, auth) && NewAttempt(run, later, uuid) && pc == Held(PcRow(run.pc), uuid)
    ensures InFlightOk(later, pc) && PcOk(run.cfg.plan, later, pc)
  {
    hide Keeps, Sane;
    NoneInFlight(run, auth);
    forall v ensures !InState(later, v, InFlight) {
      assert !InState(run.db, v, InFlight);
    }
  }

  lemma ReservedMoves(run: Run, later: Db, uuid: Id)
    requires NewAttempt(run, later, uuid) && HasRoom(run)
    ensures TablesMove(run, later, {uuid})
  {
    hide Sane, AttemptMoves, HasRoom;
    forall w ensures RowMoves(run, later, w) {
    }
  }

  lemma ReserveKeeps(run: Run, auth: Authority, uuid: Id, next: Run)
    requires RunInv(run, auth) && NewAttempt(run, next.db, uuid) && uuid !in auth.reservations && HasRoom(run)
    requires next == run.(db := next.db, pc := Held(PcRow(run.pc), uuid))
    ensures RunInv(next, auth) && Changes(run, next, {uuid})
  {
    hide Keeps, Sane, PcOk, InFlightOk, CallsOk, FundsOk, ReceiptsOk, ResultsOk, RequestsOk, TablesMove, HasRoom;
    ReservedPlace(run, auth, next.db, uuid, next.pc);
    ReservedTables(run, auth, next.db, uuid, next.pc);
    ReservedFiles(run, auth, next, uuid);
    ReservedResults(run, auth, next.db, uuid);
    ReservedRequests(run, auth, next, uuid);
    ReservedMoves(run, next.db, uuid);
    Assemble(run, auth, next);
  }

  /** The invariant from its parts, when nothing is added to the store. */
  lemma Assemble(run: Run, auth: Authority, next: Run)
    requires RunInv(run, auth) && next.cfg == run.cfg && next.objects == run.objects
    requires Healthy(next.db) && next.db.plan == run.db.plan && (next.pc.Held? || next.pc.Launched?)
    requires PcOk(next.cfg.plan, next.db, next.pc) && InFlightOk(next.db, next.pc)
    requires CallsOk(next.db, next.invoked, next.pc) && FundsOk(next.cfg, next.db, auth, next.pc)
    requires ReceiptsOk(next.cfg, next.db, next.objects, next.receipts)
    requires SlotOk(next.cfg, next.db, next.receipts, next.pc)
    requires ResultsOk(next.cfg, next.db, next.objects) && RequestsOk(next)
    ensures RunInv(next, auth)
  {
    hide ValidConfig, Sane, PcOk, InFlightOk, CallsOk, FundsOk, ReceiptsOk, ObjectsOk, ResultsOk, RequestsOk, SlotOk;
    forall p: Part ensures Keeps(p, next, auth) {
      assert Keeps(p, run, auth);
    }
  }

  lemma BuiltRow(run: Run, auth: Authority)
    requires RunInv(run, auth) && run.pc.Built?
    ensures PcRow(run.pc) < |run.cfg.plan| && StoredRequest(run, PcRow(run.pc), PcRequest(run.pc))
    ensures HoldableRow(run.db, PlanRow(run, PcRow(run.pc)).work, PcRequest(run.pc))
  {
    hide Keeps, HoldableRow, StoredRequest, CarriedOk;
    InvCarried(run, auth);
  }

  lemma HoldKeeps(run: Run, auth: Authority, uuid: Id, next: Run)
    requires RunInv(run, auth) && uuid !in auth.reservations && DoHold(run, uuid) == Holds(next)
    ensures RunInv(next, auth) && Changes(run, next, {uuid})
  {
    hide Keeps, Sane, LedgerOps.Reserve, HasRoom, StoredRequest, NewAttempt, RowMoves;
    BuiltRow(run, auth);
    var w := PlanRow(run, run.pc.k).work;
    if InState(run.db, w, Planned) {
      ReserveGives(run, auth, uuid, next);
      ReserveKeeps(run, auth, uuid, next);
    } else {
      RowRequestIs(run, auth, w);
      AdoptKeeps(run, auth, AttemptOn(run.db, w), next);
    }
  }

  /** A request that was built can be held: no mismatch is raised, only a reused identifier makes the ledger refuse it,
      and the policy's own caps refuse exactly a row that is not reserved yet. */
  lemma HoldNeverMismatches(run: Run, auth: Authority, uuid: Id)
    requires RunInv(run, auth) && run.pc.Built?
    ensures var r := DoHold(run, uuid);
      && !r.RequestMismatch? && !r.NoRequest? && PcRow(run.pc) < |run.cfg.plan|
      && (r.LedgerRefused? ==> uuid in run.db.attempts)
      && (r.NotAdmitted? <==>
            InState(run.db, PlanRow(run, PcRow(run.pc)).work, Planned) && !HasRoom(run))
  {
    hide Keeps, Sane, LedgerOps.Reserve, Admits, StoredRequest, DepsCompleted;
    BuiltRow(run, auth);
    InvHealthy(run, auth);
    var w := PlanRow(run, run.pc.k).work;
    if InState(run.db, w, Planned) {
      StoredDeps(run, run.pc.k, run.pc.request);
      ReserveAgrees(run.db, w, run.pc.request, uuid, (n: nat) => Admits(run.cfg.policy, n));
    } else {
      RowRequestIs(run, auth, w);
    }
  }

  lemma StoredDeps(run: Run, k: nat, digest: Digest)
    requires k < |run.cfg.plan| && StoredRequest(run, k, digest)
    ensures DepsCompleted(run.db, PlanRow(run, k).work)
  {
  }

  // ----- the shared reservation ---------------------------------------------------------------------

  /** More reservations never hurt, as long as they are for other runs' attempts or this run's own claims. */
  ghost predicate Grown(run: Run, auth: Authority, next: Authority) {
    && (forall a | a in auth.reservations :: a in next.reservations && next.reservations[a] == auth.reservations[a])
    && next.tracking == auth.tracking
    && (forall a | a in run.db.attempts && a in next.reservations && a !in auth.reservations ::
          Charged(run.cfg, run.db, next, a))
  }

  lemma ChargedStays(run: Run, auth: Authority, next: Authority, a: Id)
    requires Grown(run, auth, next) && Charged(run.cfg, run.db, auth, a)
    ensures Charged(run.cfg, run.db, next, a)
  {
    hide Dispatches, ValidAmount, AmountUnits;
    var claim := ClaimFor(run.cfg, a, RequestOf(run.db, a));
    assert Asked(next, claim) == Asked(auth, claim);
  }

  lemma GrowthKeeps(run: Run, auth: Authority, next: Authority)
    requires RunInv(run, auth) && Grown(run, auth, next)
    ensures RunInv(run, next)
  {
    hide ValidConfig, Sane, PcOk, InFlightOk, CallsOk, ReceiptsOk, ObjectsOk, ResultsOk, RequestsOk, CarriedOk,
      Dispatches, Charged, SlotOk, BuiltOk;
    forall a | Charged(run.cfg, run.db, auth, a) ensures Charged(run.cfg, run.db, next, a) {
      ChargedStays(run, auth, next, a);
    }
    forall p: Part ensures Keeps(p, run, next) {
      assert Keeps(p, run, auth);
    }
  }

  lemma FundGrows(run: Run, auth: Authority, later: Run, next: Authority)
    requires RunInv(run, auth) && Sound(auth) && DoFund(run, auth) == Some((later, next))
    ensures Sound(next) && Grown(run, auth, next) && Charged(run.cfg, run.db, next, PcAttempt(run.pc))
    ensures AuthGrows(run, auth, next)
  {
    hide Keeps, Sound, Granted, ValidAmount, AmountUnits, Guard;
    AdmissionAgrees(auth, ClaimFor(run.cfg, run.pc.a, RequestOf(run.db, run.pc.a)));
    PlaceSays(run, auth);
  }

  lemma FundKeeps(run: Run, auth: Authority, later: Run, next: Authority)
    requires RunInv(run, auth) && Sound(auth) && DoFund(run, auth) == Some((later, next))
    ensures RunInv(later, next) && Sound(next) && AuthGrows(run, auth, next) && Changes(run, later, {})
  {
    hide Keeps, Extends, Charged, Grown, Sound, Admission, ReceiptsOk, Sane, InState, AuthGrows, Changes;
    FundGrows(run, auth, later, next);
    assert later == run.(pc := Funded(run.pc.k, run.pc.a));
    GrowthKeeps(run, auth, next);
    PlaceSays(run, next);
    SameObjects(run, next);
    NoneInFlight(run, next);
    FilesStay(run, next, later);
    SameKeeps(run, next, later);
  }

  /** What the campaign answers to the claim of the attempt at hand. */
  ghost function Answer(run: Run, auth: Authority): Result<Authority, Campaign.Error> {
    Admission(auth, ClaimFor(run.cfg, PcAttempt(run.pc), RequestOf(run.db, PcAttempt(run.pc))))
  }

  /** The repeated reservation of a resumed attempt is never refused as a mismatch, and never charged again. */
  lemma ResumedAttemptIsNotChargedAgain(run: Run, auth: Authority)
    requires RunInv(run, auth) && Sound(auth) && run.pc.Held?
    ensures Answer(run, auth) != Err(BindingMismatch)
    ensures PcAttempt(run.pc) in auth.reservations ==>
      DoFund(run, auth) == Some((run.(pc := Funded(PcRow(run.pc), PcAttempt(run.pc))), auth))
  {
    hide Keeps, Sane, CallsOk, InFlightOk, Dispatches, ValidAmount, AmountUnits, Guard, Sound;
    InvTables(run, auth);
    PlaceSays(run, auth);
    if run.pc.a in auth.reservations {
      assert Charged(run.cfg, run.db, auth, run.pc.a);
    }
  }

  // ----- the start and the call -----------------------------------------------------------------------

  lemma LaunchMoves(run: Run, auth: Authority, next: Run)
    requires RunInv(run, auth) && DoLaunch(run) == Some(next)
    ensures run.pc.Funded? && PcAttempt(run.pc) in run.db.attempts
    ensures var a := PcAttempt(run.pc);
      && InState(run.db, WorkOf(run.db, a), Reserved)
      && Moved(run.db, next.db, MoveRow(run.db, a, InFlight, None, None))
      && next.db.retries == run.db.retries && next.db.reconciliations == run.db.reconciliations
      && next == run.(db := next.db, pc := Launched(PcRow(run.pc), a))
  {
    hide Keeps, Sane, Transition, Moved;
    InvHealthy(run, auth);
    TransitionMoves(run.db, run.pc.a, Reserved, InFlight, None, None);
  }

  /** Starting raises exactly its own attempt's dispatch count, by one, and finds no receipt of that dispatch. */
  lemma LaunchCounts(run: Run, auth: Authority, next: Run, e: Event)
    requires RunInv(run, auth) && run.pc.Funded? && Launches(run, next, e)
    ensures CallsOk(next.db, next.invoked, next.pc) && FundsOk(next.cfg, next.db, auth, next.pc)
    ensures SlotOk(next.cfg, next.db, next.receipts, next.pc)
  {
    hide Keeps, Sane, Granted, Calls, InFlightOk, Dispatches, OutcomeOk, RetriesOk, FailuresOk, ReconciliationsOk,
      SavesOk;
    InvTables(run, auth);
    InvReceipts(run, auth);
    forall b
      ensures Dispatches(next.db, b) == Dispatches(run.db, b) + One(b == PcAttempt(run.pc))
      ensures b == PcAttempt(run.pc) ==> Dispatches(run.db, b) == One(b in run.db.retries)
    {
      LaunchCount(run, auth, next, e, b);
    }
    forall b ensures Calls(run.invoked, b) + One(b == PcAttempt(run.pc)) <= Dispatches(next.db, b) {
      assert Calls(run.invoked, b) + Spare(run.pc, b) <= Dispatches(run.db, b);
    }
    forall b | b in next.db.attempts ensures Charged(run.cfg, next.db, auth, b) == Charged(run.cfg, run.db, auth, b) {
    }
  }

  lemma LaunchCount(run: Run, auth: Authority, next: Run, e: Event, b: Id)
    requires RunInv(run, auth) && run.pc.Funded? && Launches(run, next, e)
    ensures Dispatches(next.db, b) == Dispatches(run.db, b) + One(b == PcAttempt(run.pc))
    ensures b == PcAttempt(run.pc) ==> Dispatches(run.db, b) == One(b in run.db.retries)
  {
    hide Keeps, Sane;
    InvHealthy(run, auth);
    DispatchesMoved(run.db, next.db, e, b);
    if b in run.db.attempts && WorkOf(run.db, b) == e.work {
      SameWork(run.db, b, PcAttempt(run.pc));
    }
  }

  /** The start of the attempt at hand. */
  ghost predicate Launches(run: Run, next: Run, e: Event) {
    && next == run.(db := next.db, pc := Launched(PcRow(run.pc), PcAttempt(run.pc)))
    && PcAttempt(run.pc) in run.db.attempts && e.work == WorkOf(run.db, PcAttempt(run.pc)) && e.state == InFlight
    && InState(run.db, e.work, Reserved) && Moved(run.db, next.db, e)
    && next.db.retries == run.db.retries && next.db.reconciliations == run.db.reconciliations
  }

  lemma LaunchPlace(run: Run, auth: Authority, next: Run, e: Event)
    requires RunInv(run, auth) && run.pc.Funded? && Launches(run, next, e)
    ensures PcOk(next.cfg.plan, next.db, next.pc) && InFlightOk(next.db, next.pc)
    ensures Healthy(next.db) && next.db.plan == run.db.plan
  {
    hide Keeps, Sane;
    NoneInFlight(run, auth);
    PlaceSays(run, auth);
    forall w | InState(next.db, w, InFlight) ensures w == e.work {
      assert !InState(run.db, w, InFlight);
    }
  }

  lemma LaunchStore(run: Run, auth: Authority, next: Run, e: Event)
    requires RunInv(run, auth) && Launches(run, next, e)
    ensures RequestsOk(next) && ResultsOk(next.cfg, next.db, next.objects)
    ensures ReceiptsOk(next.cfg, next.db, next.objects, next.receipts)
  {
    hide Keeps, Sane, Extends, ResultsOk, RequestsOk, ObjectsOk, ValidPolicy, ReceiptsOk;
    InvHealthy(run, auth);
    InvResults(run, auth);
    SameObjects(run, auth);
    EventResults(run, next.db, e, run.objects);
    RequestsSurvive(run, next);
    EventFiles(run, auth, next, e);
  }

  lemma LaunchKeeps(run: Run, auth: Authority, next: Run)
    requires RunInv(run, auth) && DoLaunch(run) == Some(next)
    ensures RunInv(next, auth) && Changes(run, next, {})
  {
    hide Keeps, Sane, DoLaunch, Moved, PcOk, InFlightOk, CallsOk, FundsOk, ReceiptsOk, ResultsOk, RequestsOk, SlotOk,
      TablesMove;
    LaunchMoves(run, auth, next);
    PlaceSays(run, auth);
    RowNames(run, auth, PcAttempt(run.pc), Reserved);
    var e := MoveRow(run.db, PcAttempt(run.pc), InFlight, None, None);
    LaunchCounts(run, auth, next, e);
    LaunchPlace(run, auth, next, e);
    LaunchStore(run, auth, next, e);
    Assemble(run, auth, next);
    AttemptTables(run, next.db, PcAttempt(run.pc), e);
  }

  /** Every call is made by a launched attempt that holds its campaign reservation. */
  lemma InvokedIsFunded(run: Run, auth: Authority, reply: Reply)
    requires RunInv(run, auth) && DoInvoke(run, reply).Some?
    ensures var a := PcAttempt(run.pc);
      && run.pc.Launched? && a in run.db.attempts && InState(run.db, WorkOf(run.db, a), InFlight)
      && Charged(run.cfg, run.db, auth, a)
      && Calls(run.invoked, a) < Dispatches(run.db, a) <= 1 + One(a in run.db.retries)
  {
    hide Keeps, Sane, InFlightOk, Granted, Calls;
    PlaceSays(run, auth);
    InvTables(run, auth);
    assert Calls(run.invoked, run.pc.a) + Spare(run.pc, run.pc.a) <= Dispatches(run.db, run.pc.a);
  }

  lemma InvokeCarries(run: Run, auth: Authority, reply: Reply)
    requires RunInv(run, auth) && run.pc.Launched?
    ensures var a := PcAttempt(run.pc);
      CarriesAnswer(run.cfg, run.db, run.objects, a, Judged(run, reply, RequestOf(run.db, a)))
  {
    hide Keeps, Sane, Estimate, BuiltAt, InState;
    PlaceSays(run, auth);
    var k := AttemptPosition(run, auth, run.pc.a);
  }

  lemma InvokeCalls(run: Run, auth: Authority, next: Run)
    requires RunInv(run, auth) && run.pc.Launched? && next.pc.Answered? && next.db == run.db
    requires next.invoked == run.invoked + [PcAttempt(run.pc)]
    ensures CallsOk(next.db, next.invoked, next.pc)
  {
    hide Keeps, InFlightOk, FundsOk, Calls, Dispatches;
    InvTables(run, auth);
    forall a ensures Calls(next.invoked, a) <= Dispatches(run.db, a) {
      CallsAfter(run.invoked, run.pc.a, a);
      assert Calls(run.invoked, a) + Spare(run.pc, a) <= Dispatches(run.db, a);
    }
  }

  lemma InvokeFunds(run: Run, auth: Authority, pc: Pc)
    requires RunInv(run, auth) && run.pc.Launched? && pc.Answered?
    requires PcRow(pc) == PcRow(run.pc) && PcAttempt(pc) == PcAttempt(run.pc)
    ensures FundsOk(run.cfg, run.db, auth, pc) && SlotOk(run.cfg, run.db, run.receipts, pc)
    ensures PcOk(run.cfg.plan, run.db, pc) && InFlightOk(run.db, pc)
  {
    hide Keeps, CallsOk, Charged, Dispatches, ReceiptsOk, Sane, InFlightOk;
    InvTables(run, auth);
    InvReceipts(run, auth);
    PlaceSays(run, auth);
    ActiveInFlight(run, auth, pc);
  }

  lemma InvokeKeeps(run: Run, auth: Authority, reply: Reply, next: Run)
    requires RunInv(run, auth) && DoInvoke(run, reply) == Some(next)
    ensures RunInv(next, auth) && Changes(run, next, {})
  {
    hide ValidConfig, Sane, PcOk, InFlightOk, CallsOk, FundsOk, ReceiptsOk, SlotOk, ObjectsOk, ResultsOk, RequestsOk,
      CarriesAnswer, Judged, TablesMove;
    InvokeCalls(run, auth, next);
    InvokeCarries(run, auth, reply);
    InvokeFunds(run, auth, next.pc);
    SelfRequests(run, auth, next);
    StillTables(run, next.db);
    forall p: Part ensures Keeps(p, next, auth) {
      assert Keeps(p, run, auth);
    }
  }

  lemma SelfRequests(run: Run, auth: Authority, next: Run)
    requires RunInv(run, auth) && next.cfg == run.cfg && next.db == run.db && next.objects == run.objects
    ensures RequestsOk(next)
  {
    hide Keeps, Quiet, Extends, RequestsOk;
    SameObjects(run, auth);
    StoreIsQuiet(run, auth, run.objects);
    QuietRequests(run, auth, next);
  }

  // ----- what happens to the reply ---------------------------------------------------------------------

  lemma SaveKeeps(run: Run, auth: Authority, next: Run)
    requires RunInv(run, auth) && DoSave(run) == Some(next)
    ensures RunInv(next, auth) && Changes(run, next, {})
  {
    hide Keeps, Put, ReceiptsOk, Sane, InState, Estimate, InFlightOk, Changes;
    PutGrows(run, auth, ResultBlob(run.pc.result));
    PlaceSays(run, auth);
    InvReceipts(run, auth);
    InvCarried(run, auth);
    ActiveInFlight(run, auth, next.pc);
    FilesStay(run, auth, next);
    SameKeeps(run, auth, next);
  }

  /** Moving on with the same attempt keeps the item in flight the attempt's own. */
  lemma ActiveInFlight(run: Run, auth: Authority, pc: Pc)
    requires RunInv(run, auth) && Active(run.pc).Some? && Active(pc) == Active(run.pc)
    ensures InFlightOk(run.db, pc)
  {
    hide Keeps, CallsOk, FundsOk;
    InvTables(run, auth);
  }

  lemma ActiveAlone(run: Run, auth: Authority)
    requires RunInv(run, auth) && Active(run.pc).Some?
    ensures var a := PcAttempt(run.pc);
      && a in run.db.attempts && InState(run.db, WorkOf(run.db, a), InFlight)
      && forall v :: InState(run.db, v, InFlight) ==> v == WorkOf(run.db, a)
  {
    hide Keeps, Sane, CallsOk, FundsOk;
    PlaceSays(run, auth);
    InvTables(run, auth);
  }

  /** Before a receipt is created its file cannot exist: the driver never fails on it. */
  lemma ReceiptNeverCollides(run: Run, auth: Authority)
    requires RunInv(run, auth) && run.pc.Stored? && PcResult(run.pc).status != Success
    ensures DoSettle(run).Some?
  {
    hide Keeps, ReceiptsOk;
    InvReceipts(run, auth);
  }

  lemma StoredIsGood(run: Run, auth: Authority)
    requires RunInv(run, auth) && run.pc.Stored? && PcResult(run.pc).status == Success
    ensures var digest := run.cfg.hash(ResultBlob(PcResult(run.pc)));
      GoodResult(run.cfg, run.objects, RequestOf(run.db, PcAttempt(run.pc)), digest)
  {
    hide Keeps, Estimate, BuiltOk, PcOk;
    InvCarried(run, auth);
  }

  lemma RecordKeeps(run: Run, auth: Authority, next: Run)
    requires RunInv(run, auth) && run.pc.Stored? && PcResult(run.pc).status == Success && DoSettle(run) == Some(next)
    ensures RunInv(next, auth) && Changes(run, next, {})
  {
    hide Keeps, Sane, Transition, GoodResult, Extends, Quiet, ReceiptsOk, NoneTorn, TablesMove;
    var digest := run.cfg.hash(ResultBlob(run.pc.result));
    InvHealthy(run, auth);
    PlaceSays(run, auth);
    ActiveAlone(run, auth);
    StoredIsGood(run, auth);
    TransitionMoves(run.db, run.pc.a, InFlight, ResultSaved, Some(digest), None);
    RowNames(run, auth, run.pc.a, InFlight);
    var e := MoveRow(run.db, run.pc.a, ResultSaved, Some(digest), None);
    NoneInFlightAfter(run.db, next.db, e);
    SameObjects(run, auth);
    NothingTorn(run, auth);
    EventIsQuiet(run, auth, next.db, e, run.objects);
    NoFileYet(run, auth);
    EventFiles(run, auth, next, e);
    QuietKeeps(run, auth, next);
    AttemptTables(run, next.db, run.pc.a, e);
  }

  /** A call under way has no present file, under any attempt of its item. */
  lemma NoFileYet(run: Run, auth: Authority)
    requires RunInv(run, auth) && run.pc.Stored?
    ensures forall b | b in run.db.attempts && WorkOf(run.db, b) == WorkOf(run.db, PcAttempt(run.pc)) ::
      Slot(run.db, b) !in run.receipts
  {
    hide Keeps, ReceiptsOk, Sane;
    PlaceSays(run, auth);
    InvReceipts(run, auth);
    forall b | b in run.db.attempts && WorkOf(run.db, b) == WorkOf(run.db, PcAttempt(run.pc))
      ensures Slot(run.db, b) !in run.receipts
    {
      SameWork(run.db, b, run.pc.a);
    }
  }

  /** Creating the file: it is its item's present one, and the item is in flight. */
  lemma OpenedFiles(run: Run, auth: Authority, next: Run)
    requires RunInv(run, auth) && run.pc.Stored? && next.cfg == run.cfg && next.db == run.db
    requires next.objects == run.objects && next.receipts == run.receipts[Slot(run.db, PcAttempt(run.pc)) := TornFile]
    ensures ReceiptsOk(next.cfg, next.db, next.objects, next.receipts)
  {
    hide Keeps, Sane, Dispatches, ReceiptsOk, InState;
    PlaceSays(run, auth);
    ActiveIsDispatched(run, auth);
    SlotChangeKeeps(run, auth, next, Slot(run.db, run.pc.a));
  }

  lemma OpenKeeps(run: Run, auth: Authority, next: Run)
    requires RunInv(run, auth) && run.pc.Stored? && PcResult(run.pc).status != Success && DoSettle(run) == Some(next)
    ensures RunInv(next, auth) && Changes(run, next, {})
  {
    hide Keeps, Sane, Extends, ReceiptsOk, InFlightOk, Bound, Estimate, InState, Changes;
    PlaceSays(run, auth);
    InvCarried(run, auth);
    SameObjects(run, auth);
    OpenedFiles(run, auth, next);
    ActiveInFlight(run, auth, next.pc);
    SameKeeps(run, auth, next);
  }

  lemma SettleKeeps(run: Run, auth: Authority, next: Run)
    requires RunInv(run, auth) && DoSettle(run) == Some(next)
    ensures RunInv(next, auth) && Changes(run, next, {})
  {
    hide Keeps, Transition, Changes;
    if run.pc.result.status == Success {
      RecordKeeps(run, auth, next);
    } else {
      OpenKeeps(run, auth, next);
    }
  }

  lemma FillKeeps(run: Run, auth: Authority, next: Run)
    requires RunInv(run, auth) && DoFill(run) == Some(next)
    ensures RunInv(next, auth) && Changes(run, next, {})
  {
    hide Keeps, Sane, Extends, ReceiptsOk, InFlightOk, Bound, Estimate, InState, Changes;
    PlaceSays(run, auth);
    InvCarried(run, auth);
    SameObjects(run, auth);
    FilledFiles(run, auth, next);
    ActiveInFlight(run, auth, next.pc);
    SameKeeps(run, auth, next);
  }

  lemma UncertainKeeps(run: Run, auth: Authority, next: Run)
    requires RunInv(run, auth) && run.pc.Receipted? && Recover(run.db) == Result.Ok(next.db)
    requires next == run.(db := next.db, pc := Onward(run.pc))
    ensures RunInv(next, auth) && Changes(run, next, {})
  {
    hide Keeps, Sane, Recover, NoneTorn, TablesMove;
    NothingTorn(run, auth);
    PlaceSays(run, auth);
    RecoverAgrees(run.db);
    RecoverKeeps(run, auth, next);
  }

  /** The failure has its file: it was written just before. */
  lemma FailFiles(run: Run, auth: Authority, next: Run, e: Event)
    requires RunInv(run, auth) && run.pc.Receipted? && Moved(run.db, next.db, e)
    requires next.cfg == run.cfg && next.receipts == run.receipts && next.objects == run.objects
    requires next.db.retries == run.db.retries && next.db.reconciliations == run.db.reconciliations
    requires PcAttempt(run.pc) in run.db.attempts && e.work == WorkOf(run.db, PcAttempt(run.pc))
    requires InState(run.db, e.work, InFlight) && (e.state == Failed || e.state == Limited)
    ensures ReceiptsOk(next.cfg, next.db, next.objects, next.receipts)
  {
    hide Keeps, Sane, GoodResult, Extends, ReceiptsOk, NoneTorn;
    InvHealthy(run, auth);
    InvReceipts(run, auth);
    SameObjects(run, auth);
    NothingTorn(run, auth);
    forall b | b in run.db.attempts && WorkOf(run.db, b) == e.work ensures Slot(run.db, b) in run.receipts {
      SameWork(run.db, run.pc.a, b);
    }
    EventFiles(run, auth, next, e);
  }

  lemma FailKeeps(run: Run, auth: Authority, target: State, code: Code, next: Run)
    requires RunInv(run, auth) && run.pc.Receipted? && IsFailureCode(code)
    requires || (target == Failed && PcResult(run.pc).status == CallInvalid)
             || (target == Limited && PcResult(run.pc).status == CallLimited)
    requires Transition(run.db, PcAttempt(run.pc), InFlight, target, None, Some(code)) == Result.Ok(next.db)
    requires next == run.(db := next.db, pc := Onward(run.pc))
    ensures RunInv(next, auth) && Changes(run, next, {})
  {
    hide Keeps, Sane, Transition, GoodResult, Extends, Quiet, ReceiptsOk, NoneTorn, TablesMove;
    var a := run.pc.a;
    InvHealthy(run, auth);
    PlaceSays(run, auth);
    ActiveAlone(run, auth);
    TransitionMoves(run.db, a, InFlight, target, None, Some(code));
    RowNames(run, auth, a, InFlight);
    var e := MoveRow(run.db, a, target, None, Some(code));
    NoneInFlightAfter(run.db, next.db, e);
    SameObjects(run, auth);
    EventIsQuiet(run, auth, next.db, e, run.objects);
    FailFiles(run, auth, next, e);
    QuietKeeps(run, auth, next);
    AttemptTables(run, next.db, a, e);
  }

  lemma ConcludeKeeps(run: Run, auth: Authority, next: Run)
    requires RunInv(run, auth) && DoConclude(run) == Some(next)
    ensures RunInv(next, auth) && Changes(run, next, {})
  {
    hide Keeps, Recover, Transition, Changes, PcOk, BuiltOk;
    InvCarried(run, auth);
    if run.pc.result.status == CallUncertain {
      UncertainKeeps(run, auth, next);
    } else if run.pc.result.status == CallLimited {
      FailKeeps(run, auth, Limited, AdapterLimited, next);
    } else {
      FailKeeps(run, auth, Failed, AdapterFailed, next);
    }
  }

  lemma FinishKeeps(run: Run, auth: Authority, next: Run)
    requires RunInv(run, auth) && DoFinish(run) == Some(next)
    ensures RunInv(next, auth) && Changes(run, next, {})
  {
    hide Keeps, CompleteAttempt, TablesMove;
    PlaceSays(run, auth);
    CompleteKeeps(run, auth, run.pc.a, next);
  }

  // ----- operator commands ------------------------------------------------------------------------------

  /** The retry row makes up for the dispatch that is now pending again. */
  lemma RetryDispatches(db: Db, later: Db, e: Event, a: Id)
    requires Healthy(db) && Moved(db, later, e) && later.retries.Keys == db.retries.Keys + {a} && a !in db.retries
    requires a in db.attempts && e.work == WorkOf(db, a) && e.state == Reserved
    requires InState(db, e.work, Uncertain)
    ensures forall b :: Dispatches(later, b) == Dispatches(db, b)
  {
    hide Sane;
    forall b ensures Dispatches(later, b) == Dispatches(db, b) {
      if b in db.attempts && db.attempts[b].work == e.work {
        SameWork(db, a, b);
      }
    }
  }

  lemma RetryIsQuiet(run: Run, auth: Authority, later: Db, e: Event, a: Id)
    requires RunInv(run, auth) && Moved(run.db, later, e) && a !in run.db.retries
    requires later.retries.Keys == run.db.retries.Keys + {a}
    requires a in run.db.attempts && e.work == WorkOf(run.db, a) && e.state == Reserved
    requires InState(run.db, e.work, Uncertain)
    ensures Quiet(run, later, run.objects)
  {
    hide Keeps, Sane, GoodResult, Dispatches, Extends, ResultsOk;
    InvHealthy(run, auth);
    InvResults(run, auth);
    SameObjects(run, auth);
    RetryDispatches(run.db, later, e, a);
    EventResults(run, later, e, run.objects);
  }

  /** One retry granted: the item is reserved again, and its present receipt is the evidence. */
  ghost predicate RetryGranted(run: Run, next: Run, e: Event, a: Id) {
    && next.cfg == run.cfg && next.objects == run.objects && next.receipts == run.receipts
    && Healthy(run.db) && Moved(run.db, next.db, e) && NoneTorn(run.receipts)
    && a in run.db.attempts && a !in run.db.retries && e.work == WorkOf(run.db, a) && e.attempt == Some(a)
    && e.state == Reserved && InState(run.db, e.work, Uncertain)
    && NeverSent(run, a) && a in next.db.retries
    && next.db.retries == run.db.retries[a := next.db.retries[a]]
    && Names(run.receipts, (a, false), next.db.retries[a].receipt)
    && next.db.reconciliations == run.db.reconciliations
  }

  /** The first receipt becomes the retry's evidence, and the item starts a new file. */
  lemma RetryFiles(run: Run, auth: Authority, next: Run, e: Event, a: Id)
    requires RunInv(run, auth) && RetryGranted(run, next, e, a)
    ensures ReceiptsOk(next.cfg, next.db, next.objects, next.receipts)
  {
    hide Keeps, Sane, OutcomeOk, Unsent, Dispatches, ReconciliationsOk, SavesOk, FailuresOk;
    InvReceipts(run, auth);
    RetryDispatches(run.db, next.db, e, a);
    RetriedEvidence(run, next, e, a);
    forall b | b in next.db.retries ensures RetryOk(next.cfg, next.db, next.objects, next.receipts, b) {
      assert b != a ==> RetryOk(run.cfg, run.db, run.objects, run.receipts, b);
    }
    forall f | f in next.receipts ensures FileOk(next.cfg, next.db, next.objects, next.receipts, f) {
      assert FileOk(run.cfg, run.db, run.objects, run.receipts, f);
    }
  }

  lemma RetriedEvidence(run: Run, next: Run, e: Event, a: Id)
    requires ReceiptsOk(run.cfg, run.db, run.objects, run.receipts) && RetryGranted(run, next, e, a)
    ensures ReconciliationsOk(next.cfg, next.db, next.objects, next.receipts)
    ensures SavesOk(next.db, next.receipts) && FailuresOk(next.db, next.receipts)
  {
    hide Sane, NeverSent, Restores, FilesOk, RetriesOk, NoneTorn;
    forall b | b in next.db.reconciliations ensures ReconciledOk(next.cfg, next.db, next.objects, next.receipts, b) {
      assert ReconciledOk(run.cfg, run.db, run.objects, run.receipts, b);
    }
  }

  /** Leaving a single in-flight item alone keeps an idle run's place. */
  lemma IdlePlace(run: Run, auth: Authority, later: Db, e: Event, pc: Pc)
    requires RunInv(run, auth) && !Driving(run.pc) && Moved(run.db, later, e) && e.state != InFlight && !Driving(pc)
    ensures InFlightOk(later, pc)
  {
    hide Keeps, Sane, CallsOk, FundsOk;
    InvTables(run, auth);
    forall v, w | InState(later, v, InFlight) && InState(later, w, InFlight) ensures v == w {
      assert InState(run.db, v, InFlight) && InState(run.db, w, InFlight);
    }
  }

  lemma RetryKeeps(run: Run, auth: Authority, a: Id, evidence: Digest, next: Run)
    requires RunInv(run, auth) && DoRetry(run, a, evidence) == Some(next)
    ensures RunInv(next, auth) && Changes(run, next, {})
  {
    hide Keeps, Sane, AuthorizeRetry, Extends, Quiet, Reports, ReceiptsOk, NoneTorn, TablesMove, Unsent;
    var receipt := run.receipts[Slot(run.db, a)].native;
    InvHealthy(run, auth);
    ReportedIsWhole(run, auth);
    RetryMoves(run.db, a, receipt, evidence);
    var e := RetryRow(run.db, a);
    RowNames(run, auth, a, Uncertain);
    RetryIsQuiet(run, auth, next.db, e, a);
    IdlePlace(run, auth, next.db, e, Idle);
    SameObjects(run, auth);
    RetryAgrees(run.db, a, receipt, evidence);
    RetryFiles(run, auth, next, e, a);
    QuietKeeps(run, auth, next);
    AttemptTables(run, next.db, a, e);
  }

  /** What can be read from an attempt's present receipt is the outcome its file names. */
  lemma ReadIsOutcome(run: Run, auth: Authority, a: Id, receipt: ResultRecord)
    requires RunInv(run, auth) && a in run.db.attempts
    requires ReadReceipt(run, Slot(run.db, a), RequestOf(run.db, a)) == Some(receipt)
    ensures Named(run, a) == Some(receipt) && receipt.status != Success && !InState(run.db, WorkOf(run.db, a), Reserved)
    ensures Bound(run.objects, RequestOf(run.db, a), receipt)
  {
    hide Keeps, Bound, Estimate;
    InvReceipts(run, auth);
    assert FileOk(run.cfg, run.db, run.objects, run.receipts, Slot(run.db, a));
  }

  lemma RestoreKeeps(run: Run, auth: Authority, a: Id, next: Run)
    requires RunInv(run, auth) && DoRestore(run, a) == Some(next)
    ensures RunInv(next, auth) && Changes(run, next, {})
  {
    hide Keeps, Sane, Put, Extends, Reports, ReceiptsOk, Estimate, InFlightOk, Changes;
    var receipt := ReadReceipt(run, Slot(run.db, a), RequestOf(run.db, a)).value;
    PutGrows(run, auth, ResultBlob(Restoration(run.cfg, receipt).value));
    IdleInFlight(run, auth);
    RestoredInFlight(run.db, next.pc);
    FilesStay(run, auth, next);
    RestoredIsCarried(run, auth, next, a);
    SameKeeps(run, auth, next);
  }

  lemma RestoredInFlight(db: Db, pc: Pc)
    requires InFlightOk(db, Idle) && !Driving(pc)
    ensures InFlightOk(db, pc)
  {
  }

  lemma RestoredIsCarried(run: Run, auth: Authority, next: Run, a: Id)
    requires RunInv(run, auth) && DoRestore(run, a) == Some(next)
    requires Extends(run.cfg, run.objects, next.objects)
    ensures CarriedOk(next.cfg, next.db, next.objects, next.pc)
    ensures SlotOk(next.cfg, next.db, next.receipts, next.pc)
  {
    hide Keeps, Sane, Reports, Estimate, InState;
    ReadIsOutcome(run, auth, a, ReadReceipt(run, Slot(run.db, a), RequestOf(run.db, a)).value);
  }

  /** One new reconciliation, from the receipt the process read. */
  ghost predicate NewlyReconciled(run: Run, next: Run, e: Event) {
    && run.pc.Restored? && next.cfg == run.cfg && next.objects == run.objects && next.receipts == run.receipts
    && Healthy(run.db) && Moved(run.db, next.db, e) && next.db.retries == run.db.retries
    && var a := run.pc.a;
      && a in run.db.attempts && e.work == WorkOf(run.db, a) && e.state == ResultSaved && e.attempt == Some(a)
      && e.result == Some(run.pc.digest) && InState(run.db, e.work, Uncertain)
      && next.db.reconciliations == run.db.reconciliations[a := Reconciliation(run.pc.receipt, run.pc.digest)]
  }

  lemma ReconciledFiles(run: Run, auth: Authority, next: Run, e: Event)
    requires RunInv(run, auth) && NewlyReconciled(run, next, e)
    ensures ReceiptsOk(next.cfg, next.db, next.objects, next.receipts)
  {
    hide Keeps, Sane, OutcomeOk, Unsent, Restores, Dispatches, GoodResult, ReconciliationsOk, SavesOk, FailuresOk;
    InvReceipts(run, auth);
    InvCarried(run, auth);
    ReconciledEvidence(run, next, e);
    forall b | b in next.db.retries ensures RetryOk(next.cfg, next.db, next.objects, next.receipts, b) {
      assert RetryOk(run.cfg, run.db, run.objects, run.receipts, b);
    }
    forall f | f in next.receipts ensures FileOk(next.cfg, next.db, next.objects, next.receipts, f) {
      assert FileOk(run.cfg, run.db, run.objects, run.receipts, f);
      DispatchesMoved(run.db, next.db, e, f.0);
    }
  }

  lemma ReconciledEvidence(run: Run, next: Run, e: Event)
    requires ReceiptsOk(run.cfg, run.db, run.objects, run.receipts) && NewlyReconciled(run, next, e)
    requires SlotOk(run.cfg, run.db, run.receipts, run.pc) && CarriedOk(run.cfg, run.db, run.objects, run.pc)
    ensures ReconciliationsOk(next.cfg, next.db, next.objects, next.receipts)
    ensures SavesOk(next.db, next.receipts) && FailuresOk(next.db, next.receipts)
  {
    hide Sane, GoodResult, Restores, FilesOk, RetriesOk;
    forall b | b in next.db.reconciliations ensures ReconciledOk(next.cfg, next.db, next.objects, next.receipts, b) {
      assert b != run.pc.a ==> ReconciledOk(run.cfg, run.db, run.objects, run.receipts, b);
    }
    forall b | b in next.db.attempts && Saved(next.db, WorkOf(next.db, b)) && Slot(next.db, b) in next.receipts
      ensures b in next.db.reconciliations
    {
      if WorkOf(run.db, b) == e.work {
        SameWork(run.db, b, run.pc.a);
      }
    }
  }

  lemma ReconcileAgainKeeps(run: Run, auth: Authority, next: Run)
    requires RunInv(run, auth) && DoReconcile(run) == Some(next) && PcAttempt(run.pc) in run.db.reconciliations
    ensures RunInv(next, auth) && Changes(run, next, {})
  {
    hide Keeps, Sane, ReconcileResult, Extends, ReceiptsOk, InFlightOk, Changes;
    InvHealthy(run, auth);
    SameObjects(run, auth);
    ReconcileMoves(run.db, run.pc.a, run.pc.digest, run.pc.receipt);
    IdleInFlight(run, auth);
    RestoredInFlight(run.db, next.pc);
    FilesStay(run, auth, next);
    SameKeeps(run, auth, next);
  }

  lemma ReconcileKeeps(run: Run, auth: Authority, next: Run)
    requires RunInv(run, auth) && DoReconcile(run) == Some(next)
    ensures RunInv(next, auth) && Changes(run, next, {})
  {
    hide Keeps, Sane, ReconcileResult, Extends, Quiet, ReceiptsOk, InFlightOk, Current, Restores, GoodResult,
      TablesMove;
    var a, digest, receipt := run.pc.a, run.pc.digest, run.pc.receipt;
    if a in run.db.reconciliations {
      ReconcileAgainKeeps(run, auth, next);
    } else {
      InvHealthy(run, auth);
      SameObjects(run, auth);
      ReconcileMoves(run.db, a, digest, receipt);
      ReconcileAgrees(run.db, a, digest, receipt);
      var e := ReconcileRow(run.db, a, digest);
      RowNames(run, auth, a, Uncertain);
      RestoredIsGood(run, auth);
      ReconciledFiles(run, auth, next, e);
      IdlePlace(run, auth, next.db, e, next.pc);
      EventIsQuiet(run, auth, next.db, e, run.objects);
      QuietKeeps(run, auth, next);
      AttemptTables(run, next.db, a, e);
    }
  }

  lemma RestoredIsGood(run: Run, auth: Authority)
    requires RunInv(run, auth) && run.pc.Restored?
    ensures GoodResult(run.cfg, run.objects, RequestOf(run.db, PcAttempt(run.pc)), PcDigest(run.pc))
  {
    hide Keeps, GoodResult;
    InvCarried(run, auth);
  }

  lemma FinishReconcileKeeps(run: Run, auth: Authority, next: Run)
    requires RunInv(run, auth) && DoFinishReconcile(run) == Some(next)
    ensures RunInv(next, auth) && Changes(run, next, {})
  {
    hide Keeps, CompleteAttempt, TablesMove, InState;
    if run.pc.a in run.db.attempts && InState(run.db, run.db.attempts[run.pc.a].work, ResultSaved) {
      SameObjects(run, auth);
      CompleteKeeps(run, auth, run.pc.a, next);
    } else {
      StopKeeps(run, auth, Torn);
    }
  }

  // ----- one step, any action -------------------------------------------------------------------------

  /** The identifier an action draws at random. */
  function Drawn(act: Action): set<Id> {
    match act
    case Hold(uuid) => {uuid}
    case _ => {}
  }

  /** The action takes the run and the campaign to the next; nobody holds a reservation under a drawn identifier yet. */
  ghost predicate Leads(run: Run, auth: Authority, act: Action, later: Run, next: Authority) {
    Step(run, auth, act) == Some((later, next)) && Drawn(act) !! auth.reservations.Keys
  }

  /** Every step of a run keeps its invariant, only adds to the campaign, and changes only what it may. */
  lemma StepKeeps(run: Run, auth: Authority, act: Action, later: Run, next: Authority)
    requires RunInv(run, auth) && Sound(auth) && Leads(run, auth, act, later, next)
    ensures RunInv(later, next) && Sound(next) && AuthGrows(run, auth, next)
    ensures Changes(run, later, Drawn(act)) && Flows(run, later)
  {
    hide Keeps, Sound, DoResume, DoStop, DoVisit, DoPrepare, DoHold, DoLaunch, DoInvoke, DoSave, DoSettle, DoFill,
      DoConclude, DoFinish, DoRetry, DoRestore, DoReconcile, DoFinishReconcile, DoFund, Changes, Flows;
    StepFlows(run, auth, act, later, next);
    match act {
      case Resume => ResumeKeeps(run, auth, later);
      case Stop(left) => StopKeeps(run, auth, left);
      case Visit => VisitKeeps(run, auth, later);
      case Prepare(external) => PrepareKeeps(run, auth, external, later);
      case Hold(uuid) => HoldKeeps(run, auth, uuid, later);
      case Fund => FundKeeps(run, auth, later, next);
      case Launch => LaunchKeeps(run, auth, later);
      case Invoke(reply) => InvokeKeeps(run, auth, reply, later);
      case Save => SaveKeeps(run, auth, later);
      case Settle => SettleKeeps(run, auth, later);
      case Fill => FillKeeps(run, auth, later);
      case Conclude => ConcludeKeeps(run, auth, later);
      case Finish => FinishKeeps(run, auth, later);
      case Retry(a, evidence) => RetryKeeps(run, auth, a, evidence, later);
      case Restore(a) => RestoreKeeps(run, auth, a, later);
      case Reconcile => ReconcileKeeps(run, auth, later);
      case FinishReconcile => FinishReconcileKeeps(run, auth, later);
    }
  }

  /** Reservations are only added, and only for attempts of the stepping run. */
  ghost predicate AuthGrows(run: Run, auth: Authority, next: Authority) {
    && (forall a | a in auth.reservations :: a in next.reservations && next.reservations[a] == auth.reservations[a])
    && next.tracking == auth.tracking
    && (forall a | a in next.reservations :: a in auth.reservations || a in run.db.attempts)
  }

  // ----- any number of steps ----------------------------------------------------------------------------

  /** The run and campaign after a sequence of steps; `None` when one of them cannot happen. */
  ghost function Play(run: Run, auth: Authority, acts: seq<Action>): Option<(Run, Authority)> {
    if acts == [] then Some((run, auth))
    else
      match Play(run, auth, acts[..|acts| - 1])
      case None => None
      case Some((r, a)) =>
        if Drawn(acts[|acts| - 1]) !! a.reservations.Keys then Step(r, a, acts[|acts| - 1]) else None
  }

  /** The last step of a sequence, and where it started. */
  lemma PlaySplits(run: Run, auth: Authority, acts: seq<Action>, later: Run, next: Authority)
    returns (r: Run, a: Authority)
    requires acts != [] && Play(run, auth, acts) == Some((later, next))
    ensures Play(run, auth, acts[..|acts| - 1]) == Some((r, a)) && Leads(r, a, acts[|acts| - 1], later, next)
  {
    hide Step;
    var (r0, a0) := Play(run, auth, acts[..|acts| - 1]).value;
    r, a := r0, a0;
  }

  lemma {:induction false} PlayKeeps(run: Run, auth: Authority, acts: seq<Action>, later: Run, next: Authority)
    requires RunInv(run, auth) && Sound(auth) && Play(run, auth, acts) == Some((later, next))
    ensures RunInv(later, next) && Sound(next) && later.cfg == run.cfg
  {
    hide Keeps, Sound, Step, Leads, TablesMove;
    if acts != [] {
      var r, a := PlaySplits(run, auth, acts, later, next);
      PlayKeeps(run, auth, acts[..|acts| - 1], r, a);
      StepKeeps(r, a, acts[|acts| - 1], later, next);
    }
  }

  /** One more step, and all that steps are known to keep. */
  lemma Took(run0: Run, auth0: Authority, acts: seq<Action>, run: Run, auth: Authority, act: Action, later: Run,
             next: Authority)
    requires Play(run0, auth0, acts) == Some((run, auth)) && RunInv(run, auth) && Sound(auth)
    requires Leads(run, auth, act, later, next)
    ensures Play(run0, auth0, acts + [act]) == Some((later, next))
    ensures RunInv(later, next) && Sound(next) && Changes(run, later, Drawn(act)) && Flows(run, later)
  {
    hide Keeps, Sound, Step, TablesMove;
    StepKeeps(run, auth, act, later, next);
    assert (acts + [act])[..|acts|] == acts;
  }
}
