/**
 The check of everything saved that every command starts with. On a reachable run it
 passes exactly when no receipt file was left unfilled, so a crash can be resumed
 from unless it tore the receipt it was writing; a torn run can never go on.
 */
module ProviderReport {
  import opened Wrappers
  import opened Plans
  import opened LedgerTables
  import opened LedgerOps
  import opened LedgerMoves
  import opened LedgerRuns
  import opened Campaign
  import opened Policies
  import opened ProviderRun
  import opened ProviderInvariant
  import opened ProviderSafety

  // ----- every check, on a run of the invariant ------------------------------------------------

  /** A state row with a request belongs to the attempt of that request. */
  predicate AttemptRowOf(run: Run, row: Row, a: Id) {
    && Current(run.db, row.work).Some? && a in run.db.attempts && WorkOf(run.db, a) == row.work
    && RowOf(run.db, row.work).attempt == Some(a) && RowOf(run.db, row.work).request == Some(RequestOf(run.db, a))
  }

  lemma RequestRow(run: Run, auth: Authority, row: Row)
    requires RunInv(run, auth) && Current(run.db, row.work).Some?
    requires RowOf(run.db, row.work).request.Some? && RowOf(run.db, row.work).attempt.Some?
    ensures AttemptRowOf(run, row, AttemptOn(run.db, row.work))
    ensures RowOf(run.db, row.work).result.Some? ==> Saved(run.db, row.work)
  {
    hide Keeps;
    InvHealthy(run, auth);
    HealthySays(run.db);
    CurrentAttempt(run.db, row.work);
  }

  lemma RequestPasses(run: Run, auth: Authority, k: nat, a: Id)
    requires RunInv(run, auth) && k < |run.cfg.plan| && AttemptRowOf(run, PlanRow(run, k), a)
    ensures RequestReports(run, PlanRow(run, k), RequestOf(run.db, a))
  {
    hide Keeps, Build, DepsCompleted, Current;
    RebuiltRequestIsIdentical(run, auth, a, k, None);
  }

  /** A filled file can be read, and leads to an outcome bound to its request. */
  lemma WholeIsReadable(run: Run, auth: Authority, f: (Id, bool))
    requires RunInv(run, auth) && f in run.receipts && FileAt(run.receipts, f) != Some(TornFile)
    ensures f.0 in run.db.attempts && Readable(run, f, RequestOf(run.db, f.0))
  {
    hide Keeps, Dispatches, Bound;
    InvReceipts(run, auth);
    assert FileOk(run.cfg, run.db, run.objects, run.receipts, f);
  }

  predicate Readable(run: Run, f: (Id, bool), request: Digest) {
    match ReadReceipt(run, f, request)
    case None => false
    case Some(receipt) => Bound(run.objects, request, receipt)
  }

  lemma ReceiptsPass(run: Run, auth: Authority, row: Row, a: Id)
    requires RunInv(run, auth) && NoneTorn(run.receipts) && AttemptRowOf(run, row, a)
    ensures RetryReports(run, a, RequestOf(run.db, a))
    ensures ReceiptReports(run, a, RequestOf(run.db, a), RowOf(run.db, row.work).state)
  {
    hide Keeps, FilesOk, ReconciliationsOk, ReadReceipt, Bound, Current;
    InvReceipts(run, auth);
    if a in run.db.retries {
      assert RetryOk(run.cfg, run.db, run.objects, run.receipts, a);
      WholeIsReadable(run, auth, (a, false));
    }
    if Slot(run.db, a) in run.receipts {
      WholeIsReadable(run, auth, Slot(run.db, a));
    }
  }

  lemma ResultPasses(run: Run, auth: Authority, row: Row, a: Id)
    requires RunInv(run, auth) && NoneTorn(run.receipts) && AttemptRowOf(run, row, a) && Saved(run.db, row.work)
    ensures GoodResult(run.cfg, run.objects, RequestOf(run.db, a), ResultDigest(run.db, row.work))
    ensures EvidenceReports(run, a, RequestOf(run.db, a), ResultDigest(run.db, row.work))
  {
    hide Keeps, FilesOk, RetriesOk, FailuresOk, GoodResult, Bound, Restoration;
    SavedIsGood(run, auth, row.work);
    InvReceipts(run, auth);
    if a in run.db.reconciliations {
      assert ReconciledOk(run.cfg, run.db, run.objects, run.receipts, a);
      WholeIsReadable(run, auth, Slot(run.db, a));
    }
  }

  lemma RowPasses(run: Run, auth: Authority, k: nat)
    requires RunInv(run, auth) && NoneTorn(run.receipts) && k < |run.cfg.plan|
    ensures RowReports(run, PlanRow(run, k))
  {
    hide Keeps, RequestReports, RetryReports, ReceiptReports, GoodResult, EvidenceReports;
    var row := run.cfg.plan[k];
    if Current(run.db, row.work).Some? {
      var c := Current(run.db, row.work).value;
      if c.request.Some? && c.attempt.Some? {
        RequestRow(run, auth, row);
        RequestPasses(run, auth, k, c.attempt.value);
        ReceiptsPass(run, auth, row, c.attempt.value);
        if c.result.Some? {
          ResultPasses(run, auth, row, c.attempt.value);
        }
      }
    }
  }

  /** Requests, prompts, results, retry and recovery evidence always pass; only an unfilled receipt fails the check. */
  lemma ReportsExactly(run: Run, auth: Authority)
    requires RunInv(run, auth)
    ensures Reports(run) <==> NoneTorn(run.receipts)
  {
    hide Keeps, RowReports;
    if NoneTorn(run.receipts) {
      forall k | 0 <= k < |run.cfg.plan| ensures RowReports(run, run.cfg.plan[k]) {
        RowPasses(run, auth, k);
      }
    }
    if Reports(run) {
      ReportedIsWhole(run, auth);
    }
  }

  // ----- what a passed check says of a run of any origin ---------------------------------------------

  /** The attempt's request is stored as it would be built for its row now, and has its prompt. */
  ghost predicate Rebuilt(run: Run, k: nat, a: Id) {
    var env := Build(run, PlanRow(run, k), SavedExternal(run, RequestOf(run.db, a)));
    && k < |run.cfg.plan| && PlanRow(run, k).work == WorkOf(run.db, a)
    && Stores(run.objects, RequestOf(run.db, a), EnvelopeBlob(env)) && run.cfg.prompt(PlanRow(run, k), env).Some?
  }

  /** The receipts a row's history needs are there: one for a failure, the one a retry was granted for, and the one a
      recovered result restores from. */
  predicate Evidenced(run: Run, a: Id) {
    var w, slot := WorkOf(run.db, a), Slot(run.db, a);
    && (Failing(run.db, w) || slot in run.receipts ==> Readable(run, slot, RequestOf(run.db, a)))
    && (a in run.db.retries ==> Names(run.receipts, (a, false), run.db.retries[a].receipt))
    && (a in run.db.reconciliations && Saved(run.db, w) ==>
          var row := run.db.reconciliations[a];
          && Names(run.receipts, slot, row.receipt) && row.result == ResultDigest(run.db, w)
          && Restores(run.cfg, run.objects, row.receipt, row.result))
  }

  /** The row of the attempt passed its part of the check. */
  predicate Passed(run: Run, row: Row, a: Id) {
    && AttemptRowOf(run, row, a) && RowReports(run, row)
    && (Saved(run.db, row.work) ==> RowOf(run.db, row.work).result.Some?)
  }

  lemma AttemptPasses(run: Run, a: Id) returns (k: nat)
    requires ValidConfig(run.cfg) && Healthy(run.db) && run.db.plan == run.cfg.plan && Reports(run)
    requires a in run.db.attempts
    ensures k < |run.cfg.plan| && Passed(run, PlanRow(run, k), a)
  {
    hide Sane, RowReports, ValidPolicy;
    HealthyAttempt(run.db, a);
    k :| k < |run.cfg.plan| && run.cfg.plan[k].work == WorkOf(run.db, a);
    assert RowReports(run, run.cfg.plan[k]);
    HealthySays(run.db);
    CurrentAttempt(run.db, WorkOf(run.db, a));
  }

  lemma PassedIsRebuilt(run: Run, k: nat, a: Id)
    requires ObjectsOk(run.cfg, run.objects) && ValidConfig(run.cfg)
    requires k < |run.cfg.plan| && Passed(run, PlanRow(run, k), a)
    ensures Rebuilt(run, k, a)
  {
    hide Build, RetryReports, ReceiptReports, EvidenceReports, GoodResult, Current, ValidPlan, ValidPolicy;
    var env := Build(run, PlanRow(run, k), SavedExternal(run, RequestOf(run.db, a)));
    assert run.cfg.hash(EnvelopeBlob(env)) == RequestOf(run.db, a);
    assert run.cfg.hash(run.objects[RequestOf(run.db, a)]) == RequestOf(run.db, a);
  }

  lemma PassedIsEvidenced(run: Run, row: Row, a: Id)
    requires Passed(run, row, a)
    ensures Evidenced(run, a)
    ensures Saved(run.db, row.work) ==>
      GoodResult(run.cfg, run.objects, RequestOf(run.db, a), ResultDigest(run.db, row.work))
  {
    hide RequestReports, Restoration, GoodResult, Bound;
  }

  /** Whatever happened to its files: with a sound ledger and objects under their own digests, a run that passes the
      check has every request as rebuilt, every result verified, and every receipt its history needs. */
  lemma ReportsGuarantee(run: Run, a: Id)
    requires ValidConfig(run.cfg) && Healthy(run.db) && run.db.plan == run.cfg.plan
    requires ObjectsOk(run.cfg, run.objects) && Reports(run) && a in run.db.attempts
    ensures exists k: nat :: Rebuilt(run, k, a)
    ensures Saved(run.db, WorkOf(run.db, a)) ==>
      GoodResult(run.cfg, run.objects, RequestOf(run.db, a), ResultDigest(run.db, WorkOf(run.db, a)))
    ensures Evidenced(run, a)
  {
    hide Sane, Reports, RowReports, Rebuilt, Evidenced, GoodResult, ValidPlan, ObjectsOk;
    var k := AttemptPasses(run, a);
    PassedIsRebuilt(run, k, a);
    PassedIsEvidenced(run, PlanRow(run, k), a);
  }

  // ----- when the commands can start ------------------------------------------------------------

  lemma ResumesExactly(run: Run, auth: Authority)
    requires RunInv(run, auth) && run.pc == Idle
    ensures DoResume(run).Some? <==> NoneTorn(run.receipts)
  {
    hide Keeps, Reports, Recover, Sane, NoneTorn;
    ReportsExactly(run, auth);
    InvHealthy(run, auth);
    RecoverAgrees(run.db);
  }

  /** Of a process that crashes inside its loop, the run can be resumed unless the crash tore the receipt it had
      created and not yet synced. */
  lemma CrashedRunResumes(run: Run, auth: Authority, left: Remnant)
    requires RunInv(run, auth) && Driving(run.pc)
    ensures DoResume(DoStop(run, left)).Some? <==> !(run.pc.Opened? && left.Torn?)
  {
    hide Keeps, DoResume, ReceiptsOk, Reports;
    StopKeeps(run, auth, left);
    ResumesExactly(DoStop(run, left), auth);
    InvReceipts(run, auth);
    if run.pc.Opened? {
      forall f | f in run.receipts && run.receipts[f].TornFile? ensures f == Slot(run.db, PcAttempt(run.pc)) {
        OnlyOneTorn(run, auth, f);
      }
    } else {
      NothingTorn(run, auth);
    }
  }

  lemma OnlyOneTorn(run: Run, auth: Authority, f: (Id, bool))
    requires RunInv(run, auth) && run.pc.Opened? && FileAt(run.receipts, f) == Some(TornFile)
    ensures f == Slot(run.db, PcAttempt(run.pc))
  {
    hide Keeps, Sane, ReceiptsOk;
    InvHealthy(run, auth);
    ActiveAlone(run, auth);
    TornIsInFlight(run, auth, f);
    SameWork(run.db, f.0, run.pc.a);
  }

  /** The unsent retry: once per uncertain attempt, and only with a receipt that says so. */
  lemma RetriesExactly(run: Run, auth: Authority, a: Id, evidence: Digest)
    requires RunInv(run, auth) && run.pc == Idle
    ensures DoRetry(run, a, evidence).Some? <==>
      && NoneTorn(run.receipts) && a in run.db.attempts && InState(run.db, WorkOf(run.db, a), Uncertain)
      && a !in run.db.retries && NeverSent(run, a)
  {
    hide Keeps, Reports, Sane, AuthorizeRetry, InState, Bound, Unsent;
    ReportsExactly(run, auth);
    InvHealthy(run, auth);
    if Slot(run.db, a) in run.receipts && NoneTorn(run.receipts) {
      WholeIsReadable(run, auth, Slot(run.db, a));
      RetryAgrees(run.db, a, run.receipts[Slot(run.db, a)].native, evidence);
    }
    if DoRetry(run, a, evidence).Some? {
      RetryAgrees(run.db, a, run.receipts[Slot(run.db, a)].native, evidence);
    }
  }

  /** The attempt's present receipt holds a success. */
  predicate Restorable(run: Run, a: Id) {
    match Named(run, a)
    case None => false
    case Some(receipt) => Restoration(run.cfg, receipt).Some?
  }

  predicate Recoverable(db: Db, w: Id) {
    InState(db, w, Uncertain) || InState(db, w, ResultSaved) || InState(db, w, Completed)
  }

  /** A receipt is read back exactly when it restores to a success and its item is uncertain or was saved; that success
      is what is stored. */
  lemma RestoresExactly(run: Run, auth: Authority, a: Id)
    requires RunInv(run, auth) && run.pc == Idle
    ensures DoRestore(run, a).Some? <==>
      && NoneTorn(run.receipts) && a in run.db.attempts && Recoverable(run.db, WorkOf(run.db, a)) && Restorable(run, a)
    ensures DoRestore(run, a).Some? ==>
      var restored := Done(DoRestore(run, a), run);
      && restored.pc.Restored? && PcAttempt(restored.pc) == a && restored.db == run.db
      && restored.receipts == run.receipts && Named(run, a).Some?
  {
    hide Keeps, Reports, Restoration, Bound, InState;
    ReportsExactly(run, auth);
    if Slot(run.db, a) in run.receipts && NoneTorn(run.receipts) {
      WholeIsReadable(run, auth, Slot(run.db, a));
    }
  }

  /** A recovery read back is new for an uncertain attempt and otherwise only repeats one. */
  lemma ReconcilesExactly(run: Run, auth: Authority)
    requires RunInv(run, auth) && run.pc.Restored?
    ensures PcAttempt(run.pc) in run.db.attempts
    ensures DoReconcile(run).Some? <==>
      InState(run.db, WorkOf(run.db, PcAttempt(run.pc)), Uncertain) || PcAttempt(run.pc) in run.db.reconciliations
    ensures PcAttempt(run.pc) in run.db.reconciliations ==>
      DoReconcile(run) == Some(run.(pc := Reconciled(PcAttempt(run.pc))))
  {
    hide Keeps, Sane, ReconcileResult, InState, ReceiptsOk;
    InvHealthy(run, auth);
    RestoredAttempt(run, auth);
    ReconcileAgrees(run.db, run.pc.a, run.pc.digest, run.pc.receipt);
    if run.pc.a in run.db.reconciliations {
      RepeatedRecovery(run, auth, run.db.reconciliations[run.pc.a]);
    }
  }

  lemma RestoredAttempt(run: Run, auth: Authority)
    requires RunInv(run, auth) && run.pc.Restored?
    ensures PcAttempt(run.pc) in run.db.attempts
  {
    hide Keeps, Dispatches, OutcomeOk;
    InvReceipts(run, auth);
    assert FileOk(run.cfg, run.db, run.objects, run.receipts, Slot(run.db, run.pc.a));
  }

  /** Reading the same receipt again restores the same result. */
  lemma RepeatedRecovery(run: Run, auth: Authority, row: Reconciliation)
    requires RunInv(run, auth) && run.pc.Restored?
    requires (PcAttempt(run.pc), row) in run.db.reconciliations.Items
    ensures row.receipt == PcReceipt(run.pc) && row.result == PcDigest(run.pc)
  {
    hide Keeps, GoodResult, Restoration, FilesOk, RequestsOk, ResultsOk;
    InvReceipts(run, auth);
    InvCarried(run, auth);
    InvResults(run, auth);
    assert ReconciledOk(run.cfg, run.db, run.objects, run.receipts, run.pc.a);
    assert run.objects[row.result] == run.objects[run.pc.digest];
    assert run.cfg.hash(run.objects[row.result]) == row.result;
  }

  // ----- a torn run ----------------------------------------------------------------------------------

  /** With a torn receipt every command refuses: nothing can happen to the run, and nothing changes. */
  lemma TornRefusesAll(run: Run, auth: Authority, act: Action)
    requires RunInv(run, auth) && run.pc == Idle && !NoneTorn(run.receipts)
    ensures Step(run, auth, act).Some? ==> act.Stop? && Step(run, auth, act) == Some((run, auth))
  {
    hide Keeps, Reports, NoneTorn, Recover, AuthorizeRetry, ReadReceipt, InState;
    ReportsExactly(run, auth);
  }

  /** However long it is tried, a torn run stays as it is, its item in flight for ever. */
  lemma {:induction false} TornStrands(run: Run, auth: Authority, acts: seq<Action>)
    requires RunInv(run, auth) && run.pc == Idle && !NoneTorn(run.receipts) && Play(run, auth, acts).Some?
    ensures Play(run, auth, acts) == Some((run, auth))
    ensures exists w :: InState(run.db, w, InFlight)
  {
    hide Keeps, Step, InState;
    if acts == [] {
      var f :| f in run.receipts && run.receipts[f].TornFile?;
      TornIsInFlight(run, auth, f);
    } else {
      TornStrands(run, auth, acts[..|acts| - 1]);
      TornRefusesAll(run, auth, acts[|acts| - 1]);
    }
  }

}
