/**
 What one step may do to a provider run, said without the steps themselves: how the
 state rows, the attempts and their evidence move, how the loop goes on, and where new
 objects, receipts and outcomes come from.
 */
module ProviderChanges {
  import opened Wrappers
  import opened Plans
  import opened LedgerTables
  import opened LedgerOps
  import opened LedgerMoves
  import opened LedgerRuns
  import opened Campaign
  import opened ProviderRun
  import opened ProviderInvariant

  // ----- the rows of one step -------------------------------------------------------------------

  /** The row at hand. */
  predicate AtHand(run: Run, w: Id) {
    (run.pc.At? || run.pc.Built?) && PcRow(run.pc) < |run.cfg.plan| && PlanRow(run, PcRow(run.pc)).work == w
  }

  /** How a planned row can move: the request built for it is reserved, or it is skipped for its reason. */
  predicate PlannedMoves(run: Run, later: Db, w: Id) {
    && InState(run.db, w, Planned) && AtHand(run, w)
    && (|| (run.pc.Built? && InState(later, w, Reserved))
        || (run.pc.At? && InState(later, w, Unavailable) && !HasInput(run, PlanRow(run, PcRow(run.pc))))
        || (run.pc.At? && InState(later, w, Blocked) && !DepsCompleted(run.db, w)))
  }

  /** The states an attempt's row goes through; it leaves uncertainty only by an operator's command, with evidence. */
  predicate AttemptTurns(run: Run, later: Db, a: Id, s: State, t: State) {
    || (s == Reserved && t == InFlight)
    || (s == InFlight && (t == ResultSaved || t == Failed || t == Limited || t == Uncertain))
    || (s == ResultSaved && t == Completed)
    || (s == Uncertain && t == Reserved && a !in run.db.retries && a in later.retries && !Driving(run.pc))
    || (s == Uncertain && t == ResultSaved && a in later.reconciliations && !Driving(run.pc))
  }

  /** The process is at this attempt, with an outcome of this status. */
  predicate AtOutcome(run: Run, c: Event, status: Status) {
    Some(PcAttempt(run.pc)) == c.attempt && PcResult(run.pc).status == status
  }

  /** What the next row `e` of an attempt repeats of its row `c`, and what it adds: a call's success is saved under the
      digest of the outcome at hand, and a failure is the one its filled receipt tells of. */
  predicate RowCarries(run: Run, c: Event, e: Event) {
    && e.attempt == c.attempt && e.request == c.request && (e.state == Completed ==> e.result == c.result)
    && (c.state == InFlight && e.state == ResultSaved ==>
          && run.pc.Stored? && AtOutcome(run, c, Success)
          && e.result == Some(run.cfg.hash(ResultBlob(PcResult(run.pc)))))
    && (e.state == Limited ==> run.pc.Receipted? && AtOutcome(run, c, CallLimited))
    && (e.state == Failed ==> run.pc.Receipted? && AtOutcome(run, c, CallInvalid))
  }

  /** How a row with an attempt can move. */
  predicate AttemptMoves(run: Run, later: Db, w: Id) {
    && Current(run.db, w).Some? && Current(later, w).Some?
    && RowOf(run.db, w).attempt.Some? && RowCarries(run, RowOf(run.db, w), RowOf(later, w))
    && AttemptTurns(run, later, AttemptOn(run.db, w), RowOf(run.db, w).state, RowOf(later, w).state)
  }

  predicate RowMoves(run: Run, later: Db, w: Id) {
    Current(later, w) == Current(run.db, w) || PlannedMoves(run, later, w) || AttemptMoves(run, later, w)
  }

  /** A row the driver will never act on again by itself. */
  predicate Settled(db: Db, w: Id) {
    Current(db, w).Some? && (Terminal(RowOf(db, w).state) || RowOf(db, w).state == Uncertain)
  }

  /** The row at hand was passed, and is done with. */
  predicate Advances(run: Run, later: Run) {
    && Driving(run.pc) && later.pc == Onward(run.pc) && PcRow(run.pc) < |run.cfg.plan|
    && Settled(later.db, PlanRow(run, PcRow(run.pc)).work)
  }

  /** The loop stays where it is, goes on to the next row, starts again, or is left. */
  predicate Progress(run: Run, later: Run) {
    || (Driving(run.pc) && Driving(later.pc) && PcRow(later.pc) == PcRow(run.pc)) || Advances(run, later)
    || later.pc == At(0) || !Driving(later.pc)
  }

  ghost predicate KeysFrom(db: Db, later: Db, drawn: set<Id>) {
    && db.attempts.Keys <= later.attempts.Keys <= db.attempts.Keys + drawn
    && forall a | a in db.attempts :: a in later.attempts && later.attempts[a] == db.attempts[a]
  }

  /** A retry is granted to an uncertain attempt whose receipt says that nothing was sent, and once. */
  predicate GrantedTo(run: Run, later: Db, a: Id) {
    && a !in run.db.retries && NeverSent(run, a)
    && InState(run.db, WorkOf(run.db, a), Uncertain) && InState(later, WorkOf(run.db, a), Reserved)
  }

  /** Only reservations add attempts, under the id `drawn`. */
  ghost predicate TablesMove(run: Run, later: Db, drawn: set<Id>) {
    && KeysFrom(run.db, later, drawn) && (later.attempts.Keys == run.db.attempts.Keys || HasRoom(run))
    && run.db.retries.Keys <= later.retries.Keys && run.db.reconciliations.Keys <= later.reconciliations.Keys
    && (forall a | a in later.retries && a !in run.db.retries :: GrantedTo(run, later, a))
    && (forall w :: RowMoves(run, later, w))
  }

  ghost predicate Changes(run: Run, later: Run, drawn: set<Id>) {
    && later.cfg == run.cfg && TablesMove(run, later.db, drawn) && Progress(run, later)
    && (forall d | d in run.objects :: d in later.objects && later.objects[d] == run.objects[d])
  }

  lemma StillTables(run: Run, later: Db)
    requires later == run.db
    ensures TablesMove(run, later, {})
  {
    hide PlannedMoves, AttemptMoves, InState, HasRoom;
  }

  /** One event of an attempt. */
  lemma AttemptTables(run: Run, later: Db, a: Id, e: Event)
    requires Healthy(run.db) && Moved(run.db, later, e)
    requires a in run.db.attempts && e.work == WorkOf(run.db, a)
    requires AttemptTurns(run, later, a, RowOf(run.db, e.work).state, e.state)
    requires RowCarries(run, RowOf(run.db, e.work), e)
    requires run.db.retries.Keys <= later.retries.Keys && run.db.reconciliations.Keys <= later.reconciliations.Keys
    requires forall b | b in later.retries && b !in run.db.retries :: GrantedTo(run, later, b)
    ensures TablesMove(run, later, {})
  {
    hide Sane, GrantedTo, AttemptTurns, RowCarries, PlannedMoves, HasRoom;
    HealthyAttempt(run.db, a);
    forall w ensures RowMoves(run, later, w) {
    }
  }

  /** A skip. */
  lemma SkipTables(run: Run, later: Db, e: Event)
    requires Moved(run.db, later, e) && InState(run.db, e.work, Planned) && AtHand(run, e.work) && run.pc.At?
    requires later.retries == run.db.retries && later.reconciliations == run.db.reconciliations
    requires || (e.state == Unavailable && !HasInput(run, PlanRow(run, PcRow(run.pc))))
             || (e.state == Blocked && !DepsCompleted(run.db, e.work))
    ensures TablesMove(run, later, {})
  {
    hide Sane, AttemptMoves, DepsCompleted, HasRoom;
    forall w ensures RowMoves(run, later, w) {
    }
  }

  /** A recovery. */
  lemma RecoverTables(run: Run, auth: Authority, later: Db)
    requires RunInv(run, auth) && Recover(run.db) == Result.Ok(later)
    ensures TablesMove(run, later, {})
  {
    hide Keeps, Sane, Recover, PlannedMoves, HasRoom;
    InvHealthy(run, auth);
    RecoverAgrees(run.db);
    forall w ensures RowMoves(run, later, w) {
      if InState(run.db, w, InFlight) {
        RowRequestIs(run, auth, w);
      }
    }
  }

  // ----- where things come from -----------------------------------------------------------------

  /** The process carries what it was given the step before. */
  predicate PcFlows(pc: Pc, later: Pc) {
    match later
    case Launched(k, a) => pc == Funded(k, a)
    case Answered(k, a, _) => pc == Launched(k, a)
    case Stored(k, a, result) => pc == Answered(k, a, result)
    case Opened(k, a, result) => pc == Stored(k, a, result)
    case Receipted(k, a, result) => pc == Opened(k, a, result)
    case _ => true
  }

  /** Receipt files change only at the item in flight; what is written there is the outcome at hand. */
  predicate FileFlows(run: Run, later: Run, f: (Id, bool)) {
    || FileAt(later.receipts, f) == FileAt(run.receipts, f)
    || (Active(run.pc) == Some(f.0) && f == Slot(run.db, f.0)
        && match FileAt(later.receipts, f)
           case Some(WholeFile(request, native)) =>
             run.pc.Opened? && native == run.cfg.hash(ResultBlob(PcResult(run.pc)))
           case _ => true)
  }

  /** New objects are requests, the outcome at hand, or a restored success. */
  predicate BlobFlows(run: Run, later: Run, d: Digest) {
    d in later.objects &&
      match later.pc
      case Stored(_, _, result) => d == run.cfg.hash(ResultBlob(result)) && run.pc.Answered?
      case Restored(_, digest, _) => d == digest
      case _ => later.objects[d].EnvelopeBlob?
  }

  ghost predicate Flows(run: Run, later: Run) {
    && PcFlows(run.pc, later.pc)
    && (forall f :: FileFlows(run, later, f))
    && (forall d | d in later.objects && d !in run.objects :: BlobFlows(run, later, d))
  }

  lemma StepFiles(run: Run, auth: Authority, act: Action, later: Run, next: Authority)
    requires Step(run, auth, act) == Some((later, next))
    ensures forall f :: FileFlows(run, later, f)
  {
    hide Recover, CompleteAttempt, Skip, LedgerOps.Reserve, Admission, StartAttempt, RecordResult, FailAttempt,
      AuthorizeRetry, ReconcileResult, RequestAt, DepsCompleted, Current, Reports, ReadReceipt, NeedsCall, Awaits,
      Unpromptable, Restoration, InState;
    forall f ensures FileFlows(run, later, f) {
    }
  }

  lemma StepFlows(run: Run, auth: Authority, act: Action, later: Run, next: Authority)
    requires Step(run, auth, act) == Some((later, next))
    ensures Flows(run, later)
  {
    hide Recover, CompleteAttempt, Skip, LedgerOps.Reserve, Admission, StartAttempt, RecordResult, FailAttempt,
      AuthorizeRetry, ReconcileResult, RequestAt, DepsCompleted, Current, Reports, ReadReceipt, NeedsCall, Awaits,
      Unpromptable, Restoration, InState, FileFlows;
    StepFiles(run, auth, act, later, next);
  }
}
