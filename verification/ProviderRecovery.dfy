/**
 Whether the dependencies of a blocked row can still be completed, read off at the
 moment it is blocked: exactly when each of them is completed, or is uncertain with a
 receipt that restores to a success or with its one retry still to be granted.
 */
module ProviderRecovery {
  import opened Wrappers
  import opened Plans
  import opened LedgerTables
  import opened LedgerOps
  import opened LedgerMoves
  import opened LedgerRuns
  import opened Campaign
  import opened Policies
  import opened ProviderRun
  import opened ProviderInvariant
  import opened ProviderChanges
  import opened ProviderSafety
  import opened ProviderReport
  import opened ProviderRows
  import opened ProviderWorld
  import opened ProviderReplies
  import opened ProviderDriver

  // ----- rows that cannot be completed any more ----------------------------------------------------

  /** Nothing an operator can do helps the attempt: no receipt of it holds a success, and the retry was used or no
      receipt says that the request was never sent. */
  predicate Lost(run: Run, a: Id) {
    !Restorable(run, a) && (a in run.db.retries || !NeverSent(run, a))
  }

  predicate UncertainAs(db: Db, w: Id, a: Id) {
    InState(db, w, Uncertain) && RowOf(db, w).attempt == Some(a)
  }

  predicate Ruined(db: Db, w: Id) {
    Current(db, w).Some? && Terminal(RowOf(db, w).state) && RowOf(db, w).state != Completed
  }

  /** Terminal without its success, or uncertain with nothing to recover from. */
  predicate Stranded(run: Run, w: Id) {
    Ruined(run.db, w) || (UncertainAs(run.db, w, AttemptOn(run.db, w)) && Lost(run, AttemptOn(run.db, w)))
  }

  lemma UncertainAttempt(run: Run, auth: Authority, w: Id)
    requires RunInv(run, auth) && InState(run.db, w, Uncertain)
    ensures var a := AttemptOn(run.db, w); UncertainAs(run.db, w, a) && a in run.db.attempts && WorkOf(run.db, a) == w
  {
    hide Keeps;
    RowRequestIs(run, auth, w);
  }

  // ----- the receipt of an uncertain row -----------------------------------------------------------

  /** The receipt of an uncertain attempt is what it was, unless its retry is granted. */
  lemma ReceiptStays(run: Run, auth: Authority, later: Run, drawn: set<Id>, w: Id)
    requires RunInv(run, auth) && Changes(run, later, drawn) && Flows(run, later)
    requires InState(run.db, w, Uncertain) && !InState(later.db, w, Reserved)
    ensures var a := AttemptOn(run.db, w);
      Named(later, a) == Named(run, a) && (a in later.db.retries <==> a in run.db.retries)
  {
    hide Keeps, Changes, Flows, Named, Current;
    UncertainAttempt(run, auth, w);
    NamedStays(run, auth, later, drawn, AttemptOn(run.db, w));
  }

  /** A row that is as it was is as stranded as it was. */
  lemma StrandedSame(run: Run, auth: Authority, later: Run, drawn: set<Id>, w: Id)
    requires RunInv(run, auth) && Changes(run, later, drawn) && Flows(run, later)
    requires Current(later.db, w) == Current(run.db, w)
    ensures Stranded(later, w) == Stranded(run, w)
    ensures InState(run.db, w, Uncertain) ==>
      Restorable(later, AttemptOn(run.db, w)) == Restorable(run, AttemptOn(run.db, w))
  {
    hide Keeps, TablesMove, Progress, Flows, Named, Restoration, Current, Terminal, Unsent;
    if InState(run.db, w, Uncertain) {
      ReceiptStays(run, auth, later, drawn, w);
    }
  }

  // ----- stranded for good -------------------------------------------------------------------------------

  /** A stranded row stays as it is. */
  lemma StrandedRowStays(run: Run, auth: Authority, later: Run, next: Authority, drawn: set<Id>, w: Id)
    requires RunInv(run, auth) && RunInv(later, next) && Changes(run, later, drawn) && Flows(run, later)
    requires Stranded(run, w)
    ensures Current(later.db, w) == Current(run.db, w)
  {
    hide Keeps, Sane, Named, KeysFrom, Restoration, Unsent, AtHand, DepsCompleted, Flows;
    assert RowMoves(run, later.db, w);
    if InState(run.db, w, Uncertain) {
      UncertainAttempt(run, auth, w);
      var a := AttemptOn(run.db, w);
      if InState(later.db, w, ResultSaved) && a in later.db.reconciliations {
        ReceiptStays(run, auth, later, drawn, w);
        ReconciledIsRestorable(later, next, a);
      }
    }
  }

  /** The receipt a result was reconciled from restores to it. */
  lemma ReconciledIsRestorable(run: Run, auth: Authority, a: Id)
    requires RunInv(run, auth) && a in run.db.reconciliations
    ensures Restorable(run, a)
  {
    hide Keeps, Restoration, FilesOk, RetriesOk, FailuresOk, SavesOk;
    InvReceipts(run, auth);
    assert ReconciledOk(run.cfg, run.db, run.objects, run.receipts, a);
  }

  /** A stranded row stays stranded. */
  lemma StrandedStays(run: Run, auth: Authority, later: Run, next: Authority, drawn: set<Id>, w: Id)
    requires RunInv(run, auth) && RunInv(later, next) && Changes(run, later, drawn) && Flows(run, later)
    requires Stranded(run, w)
    ensures Stranded(later, w)
  {
    hide Keeps, Changes, Flows, Stranded;
    StrandedRowStays(run, auth, later, next, drawn, w);
    StrandedSame(run, auth, later, drawn, w);
  }

  lemma StrandedIsNotCompleted(run: Run, w: Id)
    requires Stranded(run, w)
    ensures !InState(run.db, w, Completed)
  {
    hide Lost;
  }

  lemma {:induction false} StrandedForGood(run: Run, auth: Authority, acts: seq<Action>, later: Run, next: Authority,
                                           w: Id)
    requires RunInv(run, auth) && Sound(auth) && Stranded(run, w) && Play(run, auth, acts) == Some((later, next))
    ensures Stranded(later, w)
  {
    hide Keeps, Sound, Stranded, Changes, Flows, Leads;
    if acts != [] {
      var r, a := PlaySplits(run, auth, acts, later, next);
      StrandedForGood(run, auth, acts[..|acts| - 1], r, a, w);
      PlayKeeps(run, auth, acts[..|acts| - 1], r, a);
      StepKeeps(r, a, acts[|acts| - 1], later, next);
      StrandedStays(r, a, later, next, Drawn(acts[|acts| - 1]), w);
    }
  }

  /** In every continuation of a history, other runs included, a row with a stranded dependency never has all its
      dependencies completed. */
  lemma {:induction false} StrandedInEveryFuture(tracking: bool, hs: seq<Happening>, more: seq<Happening>, r: Id,
                                                 run: Run, d: Id)
    requires Has(History(tracking, hs), r, run) && Stranded(run, d)
    ensures exists later ::
      Has(History(tracking, hs + more), r, later) && Stranded(later, d) && !InState(later.db, d, Completed)
    decreases |more|
  {
    hide Keeps, Stranded, History, Changes, Flows, NoneTorn;
    var later := run;
    if more == [] {
      assert hs + more == hs;
    } else {
      StrandedInEveryFuture(tracking, hs, more[..|more| - 1], r, run, d);
      var before :| Has(History(tracking, hs + more[..|more| - 1]), r, before) && Stranded(before, d);
      assert hs + more == hs + more[..|more| - 1] + [more[|more| - 1]];
      var auth, after, next, drawn := GoesOn(tracking, hs + more[..|more| - 1], more[|more| - 1], r, before);
      if after != before {
        StrandedStays(before, auth, after, next, drawn, d);
      }
      later := after;
    }
    StrandedIsNotCompleted(later, d);
  }

  // ----- plays that change one row ------------------------------------------------------------------

  /** All other rows are as at the start, and as stranded. */
  ghost predicate Aside(start: Run, run: Run, w: Id) {
    && run.cfg == start.cfg
    && forall v | v != w :: Current(run.db, v) == Current(start.db, v) && (Stranded(run, v) <==> Stranded(start, v))
  }

  /** Some steps lead from the start to here, and changed the row of `w` only. */
  ghost predicate Reached(start: Run, auth0: Authority, acts: seq<Action>, w: Id, run: Run, auth: Authority) {
    && Play(start, auth0, acts) == Some((run, auth)) && RunInv(run, auth) && Sound(auth) && Aside(start, run, w)
  }

  lemma Starts(run: Run, auth: Authority, w: Id)
    requires RunInv(run, auth) && Sound(auth)
    ensures Reached(run, auth, [], w, run, auth)
  {
    hide Keeps, Sound, Stranded, Step;
  }

  lemma Goes(start: Run, auth0: Authority, acts: seq<Action>, w: Id, run: Run, auth: Authority, act: Action, later: Run,
             next: Authority)
    requires Reached(start, auth0, acts, w, run, auth) && Leads(run, auth, act, later, next)
    requires Local(run.db, later.db, w)
    ensures Reached(start, auth0, acts + [act], w, later, next) && Changes(run, later, Drawn(act)) && Flows(run, later)
  {
    hide Play, Keeps, Sound, Leads, Stranded, TablesMove, Progress, Flows;
    Took(start, auth0, acts, run, auth, act, later, next);
    forall v | v != w
      ensures Current(later.db, v) == Current(start.db, v) && (Stranded(later, v) <==> Stranded(start, v))
    {
      StrandedSame(run, auth, later, Drawn(act), v);
    }
  }

  /** Steps after steps. */
  lemma {:induction false} PlayJoins(run: Run, auth: Authority, acts: seq<Action>, mid: Run, auth1: Authority,
                                     more: seq<Action>, later: Run, next: Authority)
    requires Play(run, auth, acts) == Some((mid, auth1)) && Play(mid, auth1, more) == Some((later, next))
    ensures Play(run, auth, acts + more) == Some((later, next))
  {
    hide Step;
    if more == [] {
      assert acts + more == acts;
    } else {
      var r, a := PlaySplits(mid, auth1, more, later, next);
      PlayJoins(run, auth, acts, mid, auth1, more[..|more| - 1], r, a);
      assert (acts + more)[..|acts + more| - 1] == acts + more[..|more| - 1];
    }
  }

  // ----- a call that goes through ---------------------------------------------------------------------

  /** The attempt of the row is charged already, or nothing needs to be. */
  ghost predicate Affords(run: Run, auth: Authority, w: Id) {
    || (InState(run.db, w, Reserved) && AttemptOn(run.db, w) in auth.reservations)
    || (auth.tracking && run.cfg.policy.caps.None?)
  }

  lemma TrackingAffords(run: Run, auth: Authority)
    requires run.cfg.policy.caps.None?
    ensures HasRoom(run)
    ensures auth.tracking && PcAttempt(run.pc) !in auth.reservations ==> Answer(run, auth).Ok?
  {
  }

  /** From a row that can be called to its reserved attempt. */
  lemma Holds(start: Run, auth0: Authority, acts: seq<Action>, w: Id, run: Run, auth: Authority)
    returns (more: seq<Action>, later: Run)
    requires Reached(start, auth0, acts, w, run, auth) && run.pc.At? && Callable(run, PcRow(run.pc), None)
    requires PlanRow(run, PcRow(run.pc)).work == w && Affords(run, auth, w)
    ensures Reached(start, auth0, more, w, later, auth) && later.pc.Held? && PcRow(later.pc) == PcRow(run.pc)
    ensures InState(run.db, w, Reserved) ==> PcAttempt(later.pc) == AttemptOn(run.db, w)
  {
    hide Play, Keeps, Sound, Leads, Stranded, DoPrepare, DoHold, NeedsCall, Awaits, Unpromptable, Current,
      Changes, Flows, HasRoom, Answer;
    PrepareTurns(run, auth, None);
    var built := Done(Prepared(DoPrepare(run, None)), run);
    Goes(start, auth0, acts, w, run, auth, Prepare(None), built, auth);
    UnusedExists(built.db.attempts.Keys + auth.reservations.Keys);
    var uuid :| uuid !in built.db.attempts && uuid !in auth.reservations;
    HoldTurns(built, auth, uuid);
    if built.cfg.policy.caps.None? {
      TrackingAffords(built, auth);
    }
    later, more := Done(HeldRun(DoHold(built, uuid)), built), acts + [Prepare(None)] + [Hold(uuid)];
    Goes(start, auth0, acts + [Prepare(None)], w, built, auth, Hold(uuid), later, auth);
  }

  /** And paid for. */
  lemma Secures(start: Run, auth0: Authority, acts: seq<Action>, w: Id, run: Run, auth: Authority)
    returns (more: seq<Action>, later: Run, next: Authority)
    requires Reached(start, auth0, acts, w, run, auth) && run.pc.At? && Callable(run, PcRow(run.pc), None)
    requires PlanRow(run, PcRow(run.pc)).work == w && Affords(run, auth, w)
    ensures Reached(start, auth0, more, w, later, next) && later.pc.Funded? && PcRow(later.pc) == PcRow(run.pc)
    ensures InState(run.db, w, Reserved) && AttemptOn(run.db, w) in auth.reservations ==> next == auth
  {
    hide Play, Keeps, Sound, Leads, Stranded, NeedsCall, Current, Callable, Answer, ClaimRefusal, ClaimEnd, Changes,
      Flows, HasRoom;
    var acts1, held := Holds(start, auth0, acts, w, run, auth);
    FundTurns(held, auth);
    if PcAttempt(held.pc) !in auth.reservations {
      TrackingAffords(held, auth);
    }
    more, later, next := acts1 + [Fund], held.(pc := Funded(PcRow(held.pc), PcAttempt(held.pc))),
      Answer(held, auth).value;
    Goes(start, auth0, acts1, w, held, auth, Fund, later, next);
  }

  /** From there to the stored outcome, whatever the provider replies. */
  lemma Serves(start: Run, auth0: Authority, acts: seq<Action>, w: Id, run: Run, auth: Authority, reply: Reply)
    returns (more: seq<Action>, later: Run)
    requires Reached(start, auth0, acts, w, run, auth) && run.pc.Funded? && PlanRow(run, PcRow(run.pc)).work == w
    ensures Reached(start, auth0, more, w, later, auth) && later.pc.Stored? && PcRow(later.pc) == PcRow(run.pc)
    ensures Carries(run.cfg, PcResult(later.pc), reply)
  {
    hide Play, Keeps, Sound, Leads, Aside, DoLaunch, Estimate, Reportable, Current, Changes, Flows;
    AcceptedExactly(reply.usage, run.cfg.policy);
    LaunchTurns(run, auth);
    var launched := Done(DoLaunch(run), run);
    Goes(start, auth0, acts, w, run, auth, Launch, launched, auth);
    ReplyTurns(launched, auth, reply);
    var answered := Done(DoInvoke(launched, reply), launched);
    Goes(start, auth0, acts + [Launch], w, launched, auth, Invoke(reply), answered, auth);
    ReplyTurns(answered, auth, reply);
    later, more := Done(DoSave(answered), answered), acts + [Launch] + [Invoke(reply)] + [Save];
    Goes(start, auth0, acts + [Launch] + [Invoke(reply)], w, answered, auth, Save, later, auth);
  }

  /** The row is completed, the process idle again with nothing torn, and nothing else changed. */
  ghost predicate Helped(start: Run, later: Run, w: Id) {
    && later.pc == Idle && NoneTorn(later.receipts) && InState(later.db, w, Completed) && Aside(start, later, w)
  }

  /** The end of a success: it is recorded and completed, and the process stops. */
  lemma Succeeds(start: Run, auth0: Authority, acts: seq<Action>, w: Id, run: Run, auth: Authority)
    returns (more: seq<Action>, later: Run)
    requires Reached(start, auth0, acts, w, run, auth) && PlanRow(run, PcRow(run.pc)).work == w
    requires run.pc.Stored? && PcResult(run.pc).status == Success
    ensures Reached(start, auth0, more, w, later, auth) && Helped(start, later, w)
    ensures SavedOutcome(later, w) == Some(PcResult(run.pc))
  {
    hide Play, Keeps, Sound, Leads, Aside, DoSettle, DoClose, CloseAction, InState, NoneTorn, Changes, Flows,
      ResultDigest;
    SettleTurns(run, auth);
    var recorded := Done(DoSettle(run), run);
    Goes(start, auth0, acts, w, run, auth, Settle, recorded, auth);
    CloseTurns(recorded, auth);
    var finished := Done(DoClose(recorded), recorded);
    Goes(start, auth0, acts + [Settle], w, recorded, auth, CloseAction(recorded), finished, auth);
    SuccessIsKept(run, auth);
    StopTurns(finished, auth, Torn);
    NothingTorn(finished, auth);
    later, more := DoStop(finished, Torn), acts + [Settle] + [CloseAction(recorded)] + [Stop(Torn)];
    Goes(start, auth0, acts + [Settle] + [CloseAction(recorded)], w, finished, auth, Stop(Torn), later, auth);
  }

  /** The recorded success is the stored outcome, and completing it keeps it. */
  lemma SuccessIsKept(stored: Run, auth: Authority)
    requires RunInv(stored, auth) && stored.pc.Stored? && PcResult(stored.pc).status == Success
    ensures var recorded := Done(DoSettle(stored), stored); var finished := Done(DoClose(recorded), recorded);
      SavedOutcome(finished, PlanRow(stored, PcRow(stored.pc)).work) == Some(PcResult(stored.pc))
  {
    hide Keeps, Sane, Transition, ValidConfig, Estimate, Bound, Local, Changes;
    SettleTurns(stored, auth);
    PlaceSays(stored, auth);
    InvCarried(stored, auth);
    var recorded, a := DoSettle(stored).value, stored.pc.a;
    TransitionMoves(stored.db, a, InFlight, ResultSaved, Some(stored.cfg.hash(ResultBlob(stored.pc.result))), None);
    SettleKeeps(stored, auth, recorded);
    CloseTurns(recorded, auth);
    CompletionKeepsResult(recorded.db, a);
  }

  // ----- ways to a success -------------------------------------------------------------------------------

  /** The process is idle, every command can start, nothing is in flight, and the rows before `k` are done with. */
  ghost predicate Rests(run: Run, k: nat) {
    && run.pc == Idle && NoneTorn(run.receipts) && Quiescent(run.db)
    && k <= |run.cfg.plan| && SettledUpTo(run.cfg.plan, run.db, k)
  }

  lemma HelpedRests(start: Run, later: Run, w: Id, k: nat)
    requires Rests(start, k) && Helped(start, later, w)
    ensures Rests(later, k)
  {
    hide Stranded, NoneTorn;
    forall v ensures !InState(later.db, v, InFlight) {
      assert v != w ==> !InState(start.db, v, InFlight);
    }
    forall j | 0 <= j < k ensures Settled(later.db, later.cfg.plan[j].work) {
      assert Settled(start.db, start.cfg.plan[j].work);
    }
  }

  // ----- by the receipt

  lemma RestoreTurns(run: Run, auth: Authority, w: Id, a: Id)
    requires RunInv(run, auth) && run.pc == Idle && NoneTorn(run.receipts)
    requires UncertainAs(run.db, w, a) && Restorable(run, a)
    ensures var later := Done(DoRestore(run, a), run);
      && Leads(run, auth, Restore(a), later, auth) && later.pc.Restored? && PcAttempt(later.pc) == a
      && later.db == run.db && later.receipts == run.receipts
  {
    hide Keeps, Reports, DoRestore, Restorable, NoneTorn;
    UncertainAttempt(run, auth, w);
    RestoresExactly(run, auth, a);
  }

  lemma NotReconciledYet(run: Run, auth: Authority, w: Id)
    requires RunInv(run, auth) && InState(run.db, w, Uncertain)
    ensures AttemptOn(run.db, w) !in run.db.reconciliations
  {
    hide Keeps, FilesOk, RetriesOk, FailuresOk, Restores, Names;
    UncertainAttempt(run, auth, w);
    InvReceipts(run, auth);
  }

  lemma ReconcileTurns(run: Run, auth: Authority, w: Id)
    requires RunInv(run, auth) && run.pc.Restored? && UncertainAs(run.db, w, PcAttempt(run.pc))
    ensures var later := Done(DoReconcile(run), run);
      && Leads(run, auth, Reconcile, later, auth) && later.pc == Reconciled(PcAttempt(run.pc))
      && later.receipts == run.receipts && Local(run.db, later.db, w) && InState(later.db, w, ResultSaved)
      && PcAttempt(run.pc) in later.db.attempts && WorkOf(later.db, PcAttempt(run.pc)) == w
      && PcAttempt(run.pc) in later.db.reconciliations
  {
    hide Keeps, Sane, ReconcileResult, DoResume, DoVisit, DoPrepare, DoHold, DoFund, DoLaunch, DoInvoke, DoSave,
      DoSettle, DoFill, DoConclude, DoFinish, DoRetry, DoRestore, DoFinishReconcile;
    InvHealthy(run, auth);
    UncertainAttempt(run, auth, w);
    NotReconciledYet(run, auth, w);
    ReconcilesExactly(run, auth);
    ReconcileMoves(run.db, run.pc.a, run.pc.digest, run.pc.receipt);
  }

  lemma FinishReconcileTurns(run: Run, auth: Authority, w: Id)
    requires RunInv(run, auth) && run.pc.Reconciled? && PcAttempt(run.pc) in run.db.attempts
    requires WorkOf(run.db, PcAttempt(run.pc)) == w && InState(run.db, w, ResultSaved)
    ensures var later := Done(DoFinishReconcile(run), run);
      && Leads(run, auth, FinishReconcile, later, auth) && later.pc == Idle && later.receipts == run.receipts
      && Local(run.db, later.db, w) && InState(later.db, w, Completed)
  {
    hide Keeps, Sane, Transition;
    InvHealthy(run, auth);
    var later := MoveTurns(run.db, run.pc.a, ResultSaved, Completed, None, None);
  }

  /** Reading the receipt back completes the row, with the success that its native answer reads as. */
  lemma RestoreCompletes(run: Run, auth: Authority, w: Id, a: Id) returns (acts: seq<Action>, later: Run)
    requires RunInv(run, auth) && Sound(auth) && run.pc == Idle && NoneTorn(run.receipts)
    requires UncertainAs(run.db, w, a) && Restorable(run, a)
    ensures Reached(run, auth, acts, w, later, auth) && Helped(run, later, w)
    ensures Named(later, a) == Named(run, a) && RecoveredAs(later, a, SavedOutcome(later, w))
  {
    hide Play, Keeps, Sound, Leads, Aside, Restorable, Named, RecoveredAs, SavedOutcome, NoneTorn, DoRestore,
      DoReconcile, DoFinishReconcile, Changes, Flows;
    Starts(run, auth, w);
    RestoreTurns(run, auth, w, a);
    var restored := Done(DoRestore(run, a), run);
    Goes(run, auth, [], w, run, auth, Restore(a), restored, auth);
    ReconcileTurns(restored, auth, w);
    var reconciled := Done(DoReconcile(restored), restored);
    Goes(run, auth, [] + [Restore(a)], w, restored, auth, Reconcile, reconciled, auth);
    FinishReconcileTurns(reconciled, auth, w);
    later, acts := Done(DoFinishReconcile(reconciled), reconciled), [] + [Restore(a)] + [Reconcile] + [FinishReconcile];
    Goes(run, auth, [] + [Restore(a)] + [Reconcile], w, reconciled, auth, FinishReconcile, later, auth);
    UncertainAttempt(run, auth, w);
    NamedStays(run, auth, restored, Drawn(Restore(a)), a);
    NamedStays(restored, auth, reconciled, Drawn(Reconcile), a);
    NamedStays(reconciled, auth, later, Drawn(FinishReconcile), a);
    assert a in later.db.reconciliations by { EvidenceStays(reconciled, later, Drawn(FinishReconcile), a); }
    SameItem(reconciled, later, Drawn(FinishReconcile), a);
    ReconciledReadsBack(later, auth, a);
  }

  lemma EvidenceStays(run: Run, later: Run, drawn: set<Id>, a: Id)
    requires Changes(run, later, drawn) && a in run.db.reconciliations
    ensures a in later.db.reconciliations
  {
    hide RowMoves, KeysFrom, Progress, GrantedTo, HasRoom;
  }

  // ----- by the retry

  lemma RetryTurns(run: Run, auth: Authority, w: Id, a: Id)
    requires RunInv(run, auth) && run.pc == Idle && NoneTorn(run.receipts) && Quiescent(run.db)
    requires UncertainAs(run.db, w, a) && a !in run.db.retries && NeverSent(run, a)
    ensures var later := Done(DoRetry(run, a, Digest(0)), run);
      && Leads(run, auth, Action.Retry(a, Digest(0)), later, auth)
      && later.pc == Idle && later.receipts == run.receipts && Local(run.db, later.db, w) && Quiescent(later.db)
      && InState(later.db, w, Reserved) && AttemptOn(later.db, w) == a
  {
    hide Keeps, Sane, AuthorizeRetry, Reports, NoneTorn, Unsent;
    InvHealthy(run, auth);
    UncertainAttempt(run, auth, w);
    RetriesExactly(run, auth, a, Digest(0));
    RetryMoves(run.db, a, run.receipts[Slot(run.db, a)].native, Digest(0));
    forall v ensures !InState(DoRetry(run, a, Digest(0)).value.db, v, InFlight) {
      assert !InState(run.db, v, InFlight);
    }
  }

  /** The loop passes over rows that are done with. */
  lemma {:induction false} PassesRows(start: Run, auth0: Authority, acts: seq<Action>, w: Id, run: Run, auth: Authority,
                                      k: nat)
    returns (more: seq<Action>)
    requires Reached(start, auth0, acts, w, run, auth) && run.pc.At? && PcRow(run.pc) <= k <= |run.cfg.plan|
    requires SettledUpTo(run.cfg.plan, run.db, k)
    ensures Reached(start, auth0, more, w, run.(pc := At(k)), auth)
    decreases k - PcRow(run.pc)
  {
    hide Play, Keeps, Sound, Leads, Aside, DoVisit, Changes, Flows;
    if PcRow(run.pc) == k {
      more := acts;
    } else {
      assert Settled(run.db, run.cfg.plan[PcRow(run.pc)].work);
      VisitTurns(run, auth);
      var passed := run.(pc := Onward(run.pc));
      Goes(start, auth0, acts, w, run, auth, Visit, passed, auth);
      more := PassesRows(start, auth0, acts + [Visit], w, passed, auth, k);
    }
  }

  lemma UncertainIsCharged(run: Run, auth: Authority, w: Id)
    requires RunInv(run, auth) && InState(run.db, w, Uncertain)
    ensures AttemptOn(run.db, w) in auth.reservations
  {
    hide Keeps, CallsOk, InFlightOk;
    UncertainAttempt(run, auth, w);
    InvTables(run, auth);
    assert Dispatches(run.db, AttemptOn(run.db, w)) >= 1;
  }

  /** A success whose usage the provider did not report; it is accepted. */
  function Silent(p: Policy): (reply: Reply)
    ensures reply.status == Success && Reportable(reply.usage, p)
  {
    Reply(Success, Text(""), if p.provider == OpenAI then FromOpenAI(None) else FromAnthropic(None), None, false)
  }

  /** The retry, and a drive up to its row. */
  lemma RetryReaches(run: Run, auth: Authority, k: nat, a: Id) returns (acts: seq<Action>, later: Run)
    requires RunInv(run, auth) && Sound(auth) && Rests(run, k) && k < |run.cfg.plan|
    requires UncertainAs(run.db, PlanRow(run, k).work, a) && a !in run.db.retries && NeverSent(run, a)
    ensures Reached(run, auth, acts, PlanRow(run, k).work, later, auth) && later.pc == At(k)
    ensures InState(later.db, PlanRow(run, k).work, Reserved) && AttemptOn(later.db, PlanRow(run, k).work) == a
  {
    hide Play, Keeps, Sound, Leads, Stranded, NoneTorn, DoRetry, DoResume, Quiescent, Current, NeverSent, Settled,
      Changes, Flows;
    var w := PlanRow(run, k).work;
    Starts(run, auth, w);
    RetryTurns(run, auth, w, a);
    var retried := Done(DoRetry(run, a, Digest(0)), run);
    Goes(run, auth, [], w, run, auth, Action.Retry(a, Digest(0)), retried, auth);
    ResumeTurns(retried, auth);
    var begun := Done(DoResume(retried), retried);
    Goes(run, auth, [] + [Action.Retry(a, Digest(0))], w, retried, auth, Resume, begun, auth);
    SettledAside(run, auth, begun, k);
    acts := PassesRows(run, auth, [] + [Action.Retry(a, Digest(0))] + [Resume], w, begun, auth, k);
    later := begun.(pc := At(k));
  }

  /** The item's saved result is this reply. */
  predicate SavedAs(run: Run, w: Id, reply: Reply) {
    match SavedOutcome(run, w)
    case None => false
    case Some(result) => Carries(run.cfg, result, reply)
  }

  /** Granting the retry and driving again completes the row with what the provider answers then, if that is a
      success whose usage is one to accept. */
  lemma RetryCompletes(run: Run, auth: Authority, k: nat, a: Id, reply: Reply) returns (acts: seq<Action>, later: Run)
    requires RunInv(run, auth) && Sound(auth) && Rests(run, k) && k < |run.cfg.plan|
    requires UncertainAs(run.db, PlanRow(run, k).work, a) && a !in run.db.retries && NeverSent(run, a)
    requires reply.status == Success && Reportable(reply.usage, run.cfg.policy)
    ensures Reached(run, auth, acts, PlanRow(run, k).work, later, auth) && Helped(run, later, PlanRow(run, k).work)
    ensures SavedAs(later, PlanRow(run, k).work, reply)
  {
    hide Play, Keeps, Sound, Stranded, Rests, NeverSent, NeedsCall, Awaits, Unpromptable, Current, InState,
      SavedOutcome, Reportable;
    var w := PlanRow(run, k).work;
    UncertainIsCharged(run, auth, w);
    var acts1, due := RetryReaches(run, auth, k, a);
    ReservedRowIs(due, auth, k, None);
    ReservedIsPromptable(due, auth, k, None);
    var acts2, funded, next := Secures(run, auth, acts1, w, due, auth);
    var acts3, stored := Serves(run, auth, acts2, w, funded, auth, reply);
    acts, later := Succeeds(run, auth, acts3, w, stored, auth);
  }

  lemma SettledAside(start: Run, auth: Authority, run: Run, k: nat)
    requires RunInv(start, auth) && k < |start.cfg.plan| && SettledUpTo(start.cfg.plan, start.db, k)
    requires Aside(start, run, PlanRow(start, k).work)
    ensures SettledUpTo(run.cfg.plan, run.db, k)
  {
    hide Keeps, Stranded, Sane;
    InvHealthy(start, auth);
    forall m | 0 <= m < k ensures Settled(run.db, run.cfg.plan[m].work) {
      assert start.cfg.plan[m].work != start.cfg.plan[k].work;
      assert Settled(start.db, start.cfg.plan[m].work);
    }
  }

  // ----- exactly when the dependencies of a row can be completed -------------------------------------------

  /** A row that is done with and not stranded can be completed. */
  lemma OneCompletes(run: Run, auth: Authority, j: nat, k: nat) returns (acts: seq<Action>, later: Run)
    requires RunInv(run, auth) && Sound(auth) && Rests(run, k) && j < k && !Stranded(run, PlanRow(run, j).work)
    ensures Reached(run, auth, acts, PlanRow(run, j).work, later, auth)
    ensures Rests(later, k) && Helped(run, later, PlanRow(run, j).work)
  {
    hide Play, Keeps, Sound, NoneTorn, Quiescent, Restorable, NeverSent, Current;
    var w := PlanRow(run, j).work;
    assert Settled(run.db, run.cfg.plan[j].work);
    Starts(run, auth, w);
    if InState(run.db, w, Completed) {
      acts, later := [], run;
    } else {
      UncertainAttempt(run, auth, w);
      var a := AttemptOn(run.db, w);
      if Restorable(run, a) {
        acts, later := RestoreCompletes(run, auth, w, a);
      } else {
        acts, later := RetryCompletes(run, auth, j, a, Silent(run.cfg.policy));
      }
      HelpedRests(run, later, w, k);
    }
  }

  /** The first of these items are completed. */
  predicate CompletedUpTo(db: Db, deps: seq<Id>, i: nat) {
    forall m | 0 <= m < i && m < |deps| :: InState(db, deps[m], Completed)
  }

  /** All of them have rows before `k`, and none is stranded. */
  predicate Hopeful(run: Run, deps: seq<Id>, k: nat) {
    k <= |run.cfg.plan| && forall d | d in deps :: d in Works(run.cfg.plan[..k]) && !Stranded(run, d)
  }

  lemma {:induction false} AllComplete(run: Run, auth: Authority, deps: seq<Id>, i: nat, k: nat)
    returns (acts: seq<Action>, later: Run)
    requires RunInv(run, auth) && Sound(auth) && Rests(run, k) && i <= |deps|
    requires Hopeful(run, deps, k) && CompletedUpTo(run.db, deps, i)
    ensures Play(run, auth, acts) == Some((later, auth)) && forall d | d in deps :: InState(later.db, d, Completed)
    decreases |deps| - i
  {
    hide Keeps, Sound, Step, NoneTorn, Quiescent, Stranded, Rests, Helped, InState, Aside;
    if i == |deps| {
      acts, later := [], run;
      forall d | d in deps ensures InState(later.db, d, Completed) {
        var m :| 0 <= m < |deps| && deps[m] == d;
      }
    } else {
      assert deps[i] in Works(run.cfg.plan[..k]);
      var j: nat :| j < k && run.cfg.plan[j].work == deps[i];
      var acts1, helped := OneCompletes(run, auth, j, k);
      AfterOne(run, helped, deps, deps[i], i, k);
      var acts2, done := AllComplete(helped, auth, deps, i + 1, k);
      PlayJoins(run, auth, acts1, helped, auth, acts2, done, auth);
      acts, later := acts1 + acts2, done;
    }
  }

  lemma AfterOne(run: Run, helped: Run, deps: seq<Id>, w: Id, i: nat, k: nat)
    requires Hopeful(run, deps, k) && CompletedUpTo(run.db, deps, i) && Helped(run, helped, w)
    requires i < |deps| ==> deps[i] == w
    ensures Hopeful(helped, deps, k) && CompletedUpTo(helped.db, deps, i + 1)
  {
    hide Stranded, NoneTorn;
    if Stranded(helped, w) {
      StrandedIsNotCompleted(helped, w);
    }
  }

  /** The steps lead to a state with all dependencies of the item completed. */
  ghost predicate CompletesDeps(run: Run, auth: Authority, acts: seq<Action>, w: Id) {
    match Play(run, auth, acts)
    case None => false
    case Some((later, _)) => DepsCompleted(later.db, w)
  }

  /** Once the loop is past a row's dependencies: they can still all be completed, by some steps, exactly when none of
      them is stranded. */
  lemma CompletableExactly(run: Run, auth: Authority, k: nat)
    requires RunInv(run, auth) && Sound(auth) && k < |run.cfg.plan| && Rests(run, k) && DepsFirst(run.cfg.plan)
    ensures (exists acts :: CompletesDeps(run, auth, acts, PlanRow(run, k).work)) <==>
      forall d | d in PlanRow(run, k).deps :: !Stranded(run, d)
  {
    hide Keeps, Sound, Stranded, Rests, Sane, Play;
    var row := PlanRow(run, k);
    InvHealthy(run, auth);
    DepsOfRow(run.cfg.plan, k);
    if acts :| CompletesDeps(run, auth, acts, row.work) {
      forall d | d in row.deps ensures !Stranded(run, d) {
        NotStrandedBefore(run, auth, acts, row.work, d);
      }
    }
    if forall d | d in row.deps :: !Stranded(run, d) {
      var acts, later := AllComplete(run, auth, row.deps, 0, k);
      PlayKeeps(run, auth, acts, later, auth);
      InvHealthy(later, auth);
      assert CompletesDeps(run, auth, acts, row.work);
    }
  }

  lemma NotStrandedBefore(run: Run, auth: Authority, acts: seq<Action>, w: Id, d: Id)
    requires RunInv(run, auth) && Sound(auth) && CompletesDeps(run, auth, acts, w) && d in DepsOf(run.db.plan, w)
    ensures !Stranded(run, d)
  {
    hide Keeps, Sound, Stranded, Play, Sane;
    var (later, next) := Play(run, auth, acts).value;
    PlayKeeps(run, auth, acts, later, next);
    InvHealthy(run, auth);
    InvHealthy(later, next);
    if Stranded(run, d) {
      StrandedForGood(run, auth, acts, later, next, d);
      StrandedIsNotCompleted(later, d);
    }
  }

  /** The moment a row is blocked, or at any later one of the drive, the process may stop and is at rest. */
  lemma StoppedRests(run: Run, auth: Authority, k: nat, left: Remnant)
    requires RunInv(run, auth) && LoopOk(run) && run.pc.At? && k <= PcRow(run.pc)
    ensures Rests(DoStop(run, left), k)
  {
    hide Keeps, NoneTorn, BlockedOk, InState, Settled;
    NothingTorn(run, auth);
    NoneInFlight(run, auth);
  }
}
