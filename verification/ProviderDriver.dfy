/**
 The provider driver as the loop it is, over its run and the shared campaign. Every
 drive, crashed or not, is a sequence of the steps of `ProviderRun`; every way it can
 end has its exact reason, and a finished drive leaves nothing to call.
 */
module ProviderDriver {
  import opened Wrappers
  import opened Plans
  import opened LedgerTables
  import opened LedgerOps
  import opened LedgerMoves
  import opened LedgerRuns
  import opened Campaign
  import opened Policies
  import opened ProviderRun
  import opened ProviderInvariant
  import opened ProviderChanges
  import opened ProviderSafety
  import opened ProviderReport
  import opened ProviderRows

  /** How a drive ended. `Raised` is any other error its own checks, the ledger, the store or the campaign raise. */
  datatype End =
    | Finished
    | Paused
    | Crashed
    | Unreadable
    | Waiting
    | PromptRefused
    | NotAdmitted
    | Exhausted
    | BoundRefused
    | ModeRefused
    | Raised

  // ----- what each step does to the rows --------------------------------------------------------

  /** No other row changed. */
  ghost predicate Local(db: Db, later: Db, w: Id) {
    forall v | v != w :: Current(later, v) == Current(db, v)
  }

  /** Nothing is in flight. */
  ghost predicate Quiescent(db: Db) {
    forall w :: !InState(db, w, InFlight)
  }

  /** The step leaves the process at `pc`, calls nothing and changes the row at hand only. */
  ghost predicate WorksOn(run: Run, later: Run, pc: Pc) {
    && later.cfg == run.cfg && later.pc == pc && later.invoked == run.invoked
    && PcRow(run.pc) < |run.cfg.plan| && Local(run.db, later.db, PlanRow(run, PcRow(run.pc)).work)
  }

  /** The step goes on to the next row and leaves this one settled. */
  ghost predicate Passes(run: Run, later: Run) {
    WorksOn(run, later, Onward(run.pc)) && Settled(later.db, PlanRow(run, PcRow(run.pc)).work)
  }

  lemma ResumeTurns(run: Run, auth: Authority)
    requires RunInv(run, auth) && run.pc == Idle && NoneTorn(run.receipts)
    ensures var begun := Done(DoResume(run), run);
      && Leads(run, auth, Resume, begun, auth) && begun.pc.At? && PcRow(begun.pc) == 0
      && begun == run.(db := begun.db, pc := begun.pc)
    ensures Quiescent(run.db) ==> Done(DoResume(run), run).db == run.db
  {
    hide Keeps, Sane, Recover, Reports, NoneTorn, InState;
    ResumesExactly(run, auth);
    InvHealthy(run, auth);
    RecoverAgrees(run.db);
  }

  lemma PlanRowHasState(run: Run, auth: Authority, k: nat)
    requires RunInv(run, auth) && k < |run.cfg.plan|
    ensures Current(run.db, PlanRow(run, k).work).Some?
  {
    hide Keeps, Sane;
    InvHealthy(run, auth);
    HealthyWork(run.db, PlanRow(run, k).work);
  }

  lemma MoveTurns(db: Db, a: Id, source: State, target: State, result: Option<Digest>, code: Option<Code>)
    returns (later: Db)
    requires Healthy(db) && PlainMove(source, target, result, code)
    requires a in db.attempts && InState(db, WorkOf(db, a), source)
    ensures Transition(db, a, source, target, result, code) == Result.Ok(later)
    ensures Local(db, later, WorkOf(db, a)) && InState(later, WorkOf(db, a), target)
    ensures RowOf(later, WorkOf(db, a)) == MoveRow(db, a, target, result, code)
  {
    hide Sane, Transition;
    TransitionAgrees(db, a, source, target, result, code);
    TransitionMoves(db, a, source, target, result, code);
    later := Transition(db, a, source, target, result, code).value;
  }

  lemma SkipTurns(db: Db, w: Id, state: State, code: Code) returns (later: Db)
    requires Healthy(db) && InState(db, w, Planned) && (state == Unavailable || state == Blocked) && IsSkipCode(code)
    ensures Skip(db, w, state, code) == Result.Ok(later) && InState(later, w, state) && Local(db, later, w)
    ensures RowOf(later, w).attempt.None? && RowOf(later, w).code == Some(code)
  {
    hide Sane, Skip;
    SkipAgrees(db, w, state, code);
    SkipMoves(db, w, state, code);
    later := Skip(db, w, state, code).value;
  }

  /** What a row that needs no call becomes: a saved result is completed as it is; a planned row is unavailable without
      its input, and otherwise blocked; any other row is passed over. */
  ghost predicate VisitedAs(run: Run, later: Run) {
    var row := PlanRow(run, PcRow(run.pc));
    var c, e := RowOf(run.db, row.work), RowOf(later.db, row.work);
    match c.state
    case ResultSaved =>
      e.state == Completed && e.attempt == c.attempt && e.request == c.request && e.result == c.result
    case Planned =>
      && e.attempt.None?
      && if HasInput(run, row) then e.state == Blocked && e.code == Some(Code.DependencyUnresolved)
         else e.state == Unavailable && e.code == Some(InputUnknown)
    case _ => later == run.(pc := Onward(run.pc))
  }

  lemma VisitSaved(run: Run, auth: Authority)
    requires RunInv(run, auth) && run.pc.At? && PcRow(run.pc) < |run.cfg.plan|
    requires InState(run.db, PlanRow(run, PcRow(run.pc)).work, ResultSaved)
    ensures var later := Done(DoVisit(run), run);
      Leads(run, auth, Visit, later, auth) && Passes(run, later) && VisitedAs(run, later)
  {
    hide Keeps, Sane, Transition, Skip, DepsCompleted;
    var w := PlanRow(run, run.pc.k).work;
    RowRequestIs(run, auth, w);
    InvHealthy(run, auth);
    var later := MoveTurns(run.db, AttemptOn(run.db, w), ResultSaved, Completed, None, None);
  }

  lemma VisitSkipped(run: Run, auth: Authority)
    requires Healthy(run.db) && run.pc.At? && PcRow(run.pc) < |run.cfg.plan|
    requires InState(run.db, PlanRow(run, PcRow(run.pc)).work, Planned) && !NeedsCall(run, PcRow(run.pc))
    ensures var later := Done(DoVisit(run), run);
      Leads(run, auth, Visit, later, auth) && Passes(run, later) && VisitedAs(run, later)
  {
    hide Sane, CompleteAttempt, Skip, DepsCompleted;
    var unavailable := SkipTurns(run.db, PlanRow(run, run.pc.k).work, Unavailable, InputUnknown);
    var blocked := SkipTurns(run.db, PlanRow(run, run.pc.k).work, Blocked, Code.DependencyUnresolved);
  }

  /** A row that needs no call is passed, completed or skipped, and is settled after that. */
  lemma VisitTurns(run: Run, auth: Authority)
    requires RunInv(run, auth) && run.pc.At? && PcRow(run.pc) < |run.cfg.plan| && !NeedsCall(run, PcRow(run.pc))
    ensures var later := Done(DoVisit(run), run);
      Leads(run, auth, Visit, later, auth) && Passes(run, later) && VisitedAs(run, later)
  {
    hide Keeps, Sane, CompleteAttempt, Skip, DepsCompleted, NeedsCall;
    var k := run.pc.k;
    InvHealthy(run, auth);
    PlanRowHasState(run, auth, k);
    NoneInFlight(run, auth);
    var s := RowOf(run.db, PlanRow(run, k).work).state;
    if s == Reserved {
      ReservedRowIs(run, auth, k, None);
    } else if s == ResultSaved {
      VisitSaved(run, auth);
    } else if s == Planned {
      VisitSkipped(run, auth);
    } else {
      assert !InState(run.db, PlanRow(run, k).work, InFlight);
    }
  }

  /** The row is due, and everything its request needs is there. */
  predicate Callable(run: Run, k: nat, revisionInput: Option<External>) {
    NeedsCall(run, k) && !Awaits(run, k, revisionInput) && !Unpromptable(run, k, revisionInput)
  }

  /** A due row waits, is refused its prompt, or has its request built and stored; each exactly when it should. */
  lemma PrepareTurns(run: Run, auth: Authority, revisionInput: Option<External>)
    requires RunInv(run, auth) && run.pc.At? && NeedsCall(run, PcRow(run.pc))
    ensures var k, r := PcRow(run.pc), DoPrepare(run, revisionInput); var built := Done(Prepared(r), run);
      && (r.Waits? <==> Awaits(run, k, revisionInput)) && (r.NoPrompt? <==> Unpromptable(run, k, revisionInput))
      && (r.Ready? <==> Callable(run, k, revisionInput))
      && (r.Ready? ==>
            && Leads(run, auth, Prepare(revisionInput), built, auth) && built.pc.Built? && PcRow(built.pc) == k
            && built.db == run.db && built.invoked == run.invoked && Callable(built, k, revisionInput))
  {
    hide Keeps, RequestAt, DepsCompleted;
    if DoPrepare(run, revisionInput).Ready? {
      StaysCallable(run, auth, revisionInput);
    }
  }

  /** Storing the request does not change it. */
  lemma StaysCallable(run: Run, auth: Authority, revisionInput: Option<External>)
    requires RunInv(run, auth) && DoPrepare(run, revisionInput).Ready?
    ensures Callable(Done(Prepared(DoPrepare(run, revisionInput)), run), PcRow(run.pc), revisionInput)
  {
    hide Keeps, Put, Quiet, Extends, Build, DepsCompleted, NeedsCall, Preserves;
    var k, next := run.pc.k, DoPrepare(run, revisionInput).run;
    PutGrows(run, auth, EnvelopeBlob(RequestAt(run, k, revisionInput)));
    StoreIsQuiet(run, auth, next.objects);
    QuietPreserves(run, auth, next);
    NeedsDeps(run, next, k);
    CustodyStays(run, next, k);
    if InState(run.db, PlanRow(run, k).work, Reserved) {
      PrepareKeeps(run, auth, revisionInput, next);
      ReservedRowIs(next, auth, k, revisionInput);
    } else {
      PlannedHasNoRequest(run, auth, PlanRow(run, k).work);
    }
  }

  lemma NeedsDeps(run: Run, later: Run, k: nat)
    requires NeedsCall(run, k) && later.cfg == run.cfg && later.db == run.db
    ensures DepsCompleted(run.db, PlanRow(run, k).work) && Open(run, k) && k < |run.cfg.plan| && NeedsCall(later, k)
  {
    hide DepsCompleted, InState;
  }

  /** The row waits for its call. */
  predicate Open(run: Run, k: nat) {
    InState(run.db, PlanRow(run, k).work, Planned) || InState(run.db, PlanRow(run, k).work, Reserved)
  }

  predicate PlannedAt(run: Run, k: nat) {
    InState(run.db, PlanRow(run, k).work, Planned)
  }

  /** What was built is reserved or found reserved, unless the policy's own caps are used up. */
  lemma HoldTurns(run: Run, auth: Authority, uuid: Id)
    requires RunInv(run, auth) && run.pc.Built? && uuid !in run.db.attempts && uuid !in auth.reservations
    ensures var k, r := PcRow(run.pc), DoHold(run, uuid); var held := Done(HeldRun(r), run);
      && (r.Holds? || r.NotAdmitted?) && (r.NotAdmitted? <==> PlannedAt(run, k) && !HasRoom(run))
      && (r.Holds? ==>
            && Leads(run, auth, Hold(uuid), held, auth) && held.pc.Held? && PcRow(held.pc) == k
            && WorksOn(run, held, held.pc))
      && (r.Holds? && !PlannedAt(run, k) ==>
            held == run.(pc := held.pc) && PcAttempt(held.pc) == AttemptOn(run.db, PlanRow(run, k).work))
  {
    hide Keeps, Sane, LedgerOps.Reserve, HasRoom;
    HoldNeverMismatches(run, auth, uuid);
    BuiltRow(run, auth);
    var r := DoHold(run, uuid);
    if r.Holds? && PlannedAt(run, PcRow(run.pc)) {
      ReserveGives(run, auth, uuid, r.run);
    }
  }

  /** Whatever is stored: what is held is the row's own attempt, reserved for exactly the request that was built. */
  lemma HoldIsOfItsRequest(run: Run, uuid: Id)
    requires Healthy(run.db)
    ensures match HeldRun(DoHold(run, uuid))
      case None => true
      case Some(held) =>
        var c := RowOf(held.db, PlanRow(run, PcRow(run.pc)).work);
        c.request == Some(PcRequest(run.pc)) && c.attempt == Some(PcAttempt(held.pc)) && PcRow(held.pc) == PcRow(run.pc)
  {
    hide Sane, LedgerOps.Reserve, HasRoom, DepsCompleted;
    if DoHold(run, uuid).Holds? && InState(run.db, PlanRow(run, PcRow(run.pc)).work, Planned) {
      ReserveMoves(run.db, PlanRow(run, PcRow(run.pc)).work, PcRequest(run.pc), uuid,
                   (n: nat) => Admits(run.cfg.policy, n));
    }
  }

  // ----- the shared reservation --------------------------------------------------------------------

  /** Why a campaign refuses a run's claim. */
  ghost predicate ClaimRefusal(cfg: Config, auth: Authority, end: End) {
    match end
    case ModeRefused => !(auth.tracking <==> cfg.policy.caps.None?)
    case BoundRefused =>
      !auth.tracking && cfg.policy.caps.Some? && !ValidAmount(ReservationCost(cfg.policy).value)
    case Exhausted =>
      && !auth.tracking && cfg.policy.caps.Some?
      && Total(auth.reservations) + AmountUnits(ReservationCost(cfg.policy).value) > CEILING
    case _ => false
  }

  /** What a drive makes of the campaign's errors. */
  function ClaimEnd(cfg: Config, tracking: bool, e: Campaign.Error): End {
    match e
    case Exhausted => End.Exhausted
    case TrackingRequiresNoReservation => ModeRefused
    case InvalidUpperBound => if cfg.policy.caps.None? then ModeRefused else BoundRefused
    case _ => Raised
  }

  lemma ClaimAnswers(cfg: Config, auth: Authority, a: Id, request: Digest)
    requires Sound(auth)
    ensures match Admission(auth, ClaimFor(cfg, a, request))
      case Ok(_) => true
      case Err(e) => e != BindingMismatch ==> ClaimRefusal(cfg, auth, ClaimEnd(cfg, auth.tracking, e))
  {
    hide Sound, ValidAmount, AmountUnits, Granted, Guard, Total, TokenBudget.TokenCost;
    AdmissionAgrees(auth, ClaimFor(cfg, a, request));
  }

  lemma FundTurns(run: Run, auth: Authority)
    requires RunInv(run, auth) && Sound(auth) && run.pc.Held?
    ensures match Answer(run, auth)
      case Err(e) =>
        PcAttempt(run.pc) !in auth.reservations && ClaimRefusal(run.cfg, auth, ClaimEnd(run.cfg, auth.tracking, e))
      case Ok(next) =>
        && Leads(run, auth, Fund, run.(pc := Funded(PcRow(run.pc), PcAttempt(run.pc))), next)
        && (PcAttempt(run.pc) in auth.reservations ==> next == auth)
  {
    hide Keeps, Sound, Admission, ClaimRefusal, ClaimEnd;
    ResumedAttemptIsNotChargedAgain(run, auth);
    ClaimAnswers(run.cfg, auth, run.pc.a, RequestOf(run.db, run.pc.a));
  }

  /** The row holds its local reservation, and the campaign has none for it. */
  predicate Uncharged(run: Run, auth: Authority, k: nat) {
    && InState(run.db, PlanRow(run, k).work, Reserved) && RowOf(run.db, PlanRow(run, k).work).attempt.Some?
    && AttemptOn(run.db, PlanRow(run, k).work) !in auth.reservations
  }

  /** While the row at hand is reserved it can be called, and its row names the attempt at hand. */
  lemma HeldIsCallable(run: Run, auth: Authority, revisionInput: Option<External>)
    requires RunInv(run, auth) && run.pc.Held?
    ensures Callable(run, PcRow(run.pc), revisionInput)
    ensures PcAttempt(run.pc) !in auth.reservations ==> Uncharged(run, auth, PcRow(run.pc))
  {
    hide Keeps, NeedsCall, Awaits, RequestAt, Sane;
    PlaceSays(run, auth);
    ReservedRowIs(run, auth, run.pc.k, revisionInput);
    SameWork(run.db, run.pc.a, AttemptOn(run.db, PlanRow(run, run.pc.k).work));
  }

  // ----- the call ------------------------------------------------------------------------------------

  lemma LaunchTurns(run: Run, auth: Authority)
    requires RunInv(run, auth) && run.pc.Funded?
    ensures var later := Done(DoLaunch(run), run);
      Leads(run, auth, Launch, later, auth) && WorksOn(run, later, Launched(PcRow(run.pc), PcAttempt(run.pc)))
  {
    hide Keeps, Sane, Transition, InState;
    PlaceSays(run, auth);
    var later := MoveTurns(run.db, run.pc.a, Reserved, InFlight, None, None);
  }

  /** Whatever the provider replies, the outcome can be stored. */
  lemma ReplyTurns(run: Run, auth: Authority, reply: Reply)
    ensures run.pc.Launched? ==> Leads(run, auth, Invoke(reply), Done(DoInvoke(run, reply), run), auth)
    ensures run.pc.Answered? ==> Leads(run, auth, Save, Done(DoSave(run), run), auth)
  {
    hide Judged, Put;
  }

  /** After the outcome is stored, it is recorded, or a receipt that cannot exist yet is created. */
  lemma SettleTurns(run: Run, auth: Authority)
    requires RunInv(run, auth) && run.pc.Stored?
    ensures var later, k, a, result := Done(DoSettle(run), run), PcRow(run.pc), PcAttempt(run.pc), PcResult(run.pc);
      && Leads(run, auth, Settle, later, auth)
      && WorksOn(run, later, if result.status == Success then Recorded(k, a) else Opened(k, a, result))
  {
    hide Keeps, Sane, Transition, InState;
    PlaceSays(run, auth);
    if run.pc.result.status == Success {
      var digest := run.cfg.hash(ResultBlob(run.pc.result));
      var later := MoveTurns(run.db, run.pc.a, InFlight, ResultSaved, Some(digest), None);
    } else {
      ReceiptNeverCollides(run, auth);
    }
  }

  lemma FillTurns(run: Run, auth: Authority)
    requires RunInv(run, auth) && run.pc.Opened?
    ensures var later := Done(DoFill(run), run);
      && Leads(run, auth, Fill, later, auth)
      && WorksOn(run, later, Receipted(PcRow(run.pc), PcAttempt(run.pc), PcResult(run.pc)))
  {
    hide Keeps, Sane, InState;
    PlaceSays(run, auth);
  }

  /** The state a provider's answer leaves its item in. */
  function FinalState(status: Status): State {
    match status
    case Success => Completed
    case CallLimited => Limited
    case CallInvalid => Failed
    case CallUncertain => Uncertain
  }

  function FinalCode(status: Status): Option<Code> {
    match status
    case Success => None
    case CallLimited => Some(AdapterLimited)
    case CallInvalid => Some(AdapterFailed)
    case CallUncertain => Some(Interrupted)
  }

  /** The last step of a row leaves it in the state its answer calls for, with the code of an answer that is no
      success. */
  ghost predicate Ends(run: Run, later: Run) {
    && (run.pc.Recorded? || run.pc.Receipted?) && Passes(run, later)
    && InState(later.db, PlanRow(run, PcRow(run.pc)).work,
               if run.pc.Recorded? then Completed else FinalState(PcResult(run.pc).status))
    && (run.pc.Receipted? ==>
          RowOf(later.db, PlanRow(run, PcRow(run.pc)).work).code == FinalCode(PcResult(run.pc).status))
  }

  function CloseAction(run: Run): Action {
    if run.pc.Recorded? then Finish else Conclude
  }

  function DoClose(run: Run): Option<Run> {
    if run.pc.Recorded? then DoFinish(run) else DoConclude(run)
  }

  /** Each outcome that is no success leaves its item in its own state. */
  lemma ConcludeTurns(run: Run, auth: Authority)
    requires RunInv(run, auth) && run.pc.Receipted? && PcResult(run.pc).status != Success
    ensures var later := Done(DoConclude(run), run); Leads(run, auth, Conclude, later, auth) && Ends(run, later)
  {
    hide Keeps, Sane, Transition, Recover, Current, DoResume, DoVisit, DoPrepare, DoHold, DoFund, DoLaunch, DoInvoke,
      DoSave, DoSettle, DoFill, DoFinish, DoRetry, DoRestore, DoReconcile, DoFinishReconcile;
    PlaceSays(run, auth);
    ActiveAlone(run, auth);
    if run.pc.result.status == CallUncertain {
      RecoverAgrees(run.db);
    } else if run.pc.result.status == CallLimited {
      var later := MoveTurns(run.db, run.pc.a, InFlight, Limited, None, Some(AdapterLimited));
    } else {
      var later := MoveTurns(run.db, run.pc.a, InFlight, Failed, None, Some(AdapterFailed));
    }
  }

  lemma CloseTurns(run: Run, auth: Authority)
    requires RunInv(run, auth) && (run.pc.Recorded? || run.pc.Receipted?)
    ensures var later := Done(DoClose(run), run); Leads(run, auth, CloseAction(run), later, auth) && Ends(run, later)
  {
    hide Keeps, Sane, Transition, Current, DoResume, DoVisit, DoPrepare, DoHold, DoFund, DoLaunch, DoInvoke, DoSave,
      DoSettle, DoFill, DoConclude, DoRetry, DoRestore, DoReconcile, DoFinishReconcile;
    if run.pc.Recorded? {
      PlaceSays(run, auth);
      var later := MoveTurns(run.db, run.pc.a, ResultSaved, Completed, None, None);
    } else {
      InvCarried(run, auth);
      ConcludeTurns(run, auth);
    }
  }

  // ----- why a drive ends -----------------------------------------------------------------------

  /** Why a drive ended where it did, seen in the run and campaign it left. */
  ghost predicate Reason(run: Run, auth: Authority, at: nat, revisionInput: Option<External>, end: End) {
    && at <= |run.cfg.plan| && SettledUpTo(run.cfg.plan, run.db, at)
    && (end == Finished <==> at == |run.cfg.plan|)
    && (at < |run.cfg.plan| ==> RowReason(run, auth, at, revisionInput, end))
  }

  /**
   The row it ended at. But for a pause and a crash no two of these can hold together: the row is due, and its input is
   awaited, or its prompt is missing, or it is not reserved and the policy is used up, or it is reserved and not charged
   and the campaign refuses. A writer's or reviewer's row whose prompt was refused is refused for good.
   */
  ghost predicate RowReason(run: Run, auth: Authority, at: nat, revisionInput: Option<External>, end: End) {
    match end
    case Paused => Open(run, at)
    case Crashed => true
    case Waiting => NeedsCall(run, at) && Awaits(run, at, revisionInput) && PlannedAt(run, at)
    case PromptRefused =>
      && Unpromptable(run, at, revisionInput) && PlannedAt(run, at)
      && (PlanRow(run, at).role != Revision ==> Refused(run, at))
    case NotAdmitted => CapsRefuse(run, at, revisionInput)
    case Exhausted => ClaimReason(run, auth, at, revisionInput, end)
    case BoundRefused => ClaimReason(run, auth, at, revisionInput, end)
    case ModeRefused => ClaimReason(run, auth, at, revisionInput, end)
    case _ => false
  }

  /** The row could be called, is not reserved, and the policy's own caps are used up. */
  predicate CapsRefuse(run: Run, k: nat, revisionInput: Option<External>) {
    Callable(run, k, revisionInput) && PlannedAt(run, k) && !HasRoom(run)
  }

  ghost predicate ClaimReason(run: Run, auth: Authority, k: nat, revisionInput: Option<External>, end: End) {
    Callable(run, k, revisionInput) && Uncharged(run, auth, k) && ClaimRefusal(run.cfg, auth, end)
  }

  /** The loop was left at row `k`, with the reason for it, or goes on. */
  ghost predicate Stopped(run: Run, auth: Authority, k: nat, revisionInput: Option<External>, mayCrash: bool,
                          end: Option<End>) {
    match end
    case None => true
    case Some(e) =>
      && Driving(run.pc) && PcRow(run.pc) == k && k < |run.cfg.plan| && RowReason(run, auth, k, revisionInput, e)
      && e != Finished && e != Unreadable && (if e == Crashed then mayCrash else Active(run.pc).None?)
  }

  /** Neither the files nor the place of the process matter to the reason. */
  lemma ReasonStays(run: Run, later: Run, auth: Authority, at: nat, revisionInput: Option<External>, end: End)
    requires later.cfg == run.cfg && later.db == run.db && later.objects == run.objects
    requires RowReason(run, auth, at, revisionInput, end)
    ensures RowReason(later, auth, at, revisionInput, end)
  {
    hide DepsCompleted, InState, Parents, Outputs, Current, ClaimRefusal, Admits;
    assert forall external :: Build(later, PlanRow(later, at), external) == Build(run, PlanRow(run, at), external);
    assert ExternalAt(later, at, revisionInput) == ExternalAt(run, at, revisionInput);
    assert RequestAt(later, at, revisionInput) == RequestAt(run, at, revisionInput);
  }

  /** Leaving the loop keeps the reason it was left for, and leaves no torn receipt behind unless it was a crash. */
  lemma LeavesItsReason(run: Run, auth: Authority, at: nat, revisionInput: Option<External>, end: End, left: Remnant)
    requires RunInv(run, auth) && LoopOk(run) && Driving(run.pc) && PcRow(run.pc) == at
    requires at < |run.cfg.plan| ==> end != Finished && RowReason(run, auth, at, revisionInput, end)
    requires at >= |run.cfg.plan| ==> end == Finished
    requires end != Crashed ==> Active(run.pc).None?
    ensures Reason(DoStop(run, left), auth, at, revisionInput, end)
    ensures end != Crashed ==> Reports(DoStop(run, left)) && Quiescent(DoStop(run, left).db)
  {
    hide Keeps, BlockedOk, RowReason, Reports, SettledUpTo, ReceiptsOk, InState, Changes;
    if at < |run.cfg.plan| {
      ReasonStays(run, DoStop(run, left), auth, at, revisionInput, end);
    }
    if end != Crashed {
      NothingTorn(run, auth);
      NoneInFlight(run, auth);
      StopKeeps(run, auth, left);
      ReportsExactly(DoStop(run, left), auth);
    }
  }

  lemma PromptReason(run: Run, auth: Authority, k: nat, revisionInput: Option<External>)
    requires RunInv(run, auth) && NeedsCall(run, k)
    ensures Unpromptable(run, k, revisionInput) ==> RowReason(run, auth, k, revisionInput, PromptRefused)
    ensures Awaits(run, k, revisionInput) ==> RowReason(run, auth, k, revisionInput, Waiting)
  {
    hide Keeps, NeedsCall, RequestAt, Unpromptable, Refused, Awaits, Build;
    NeedsDeps(run, run, k);
    if InState(run.db, PlanRow(run, k).work, Reserved) {
      ReservedRowIs(run, auth, k, revisionInput);
      ReservedIsPromptable(run, auth, k, revisionInput);
    } else {
      RefusedExactly(run, auth, k, revisionInput);
    }
  }

  // ----- the loop -------------------------------------------------------------------------------

  class ProviderProcess {
    const budget: CampaignBudget
    var run: Run
    ghost var acts: seq<Action>
    ghost const run0: Run
    ghost const auth0: Authority

    /** The run's invariants, and that all it ever did was a sequence of steps. */
    ghost predicate Valid()
      reads this, budget
    {
      && RunInv(run, budget.View()) && LoopOk(run) && Sound(budget.View())
      && Play(run0, auth0, acts) == Some((run, budget.View()))
    }

    constructor (run: Run, budget: CampaignBudget)
      requires RunInv(run, budget.View()) && LoopOk(run) && Sound(budget.View())
      ensures Valid() && this.run == run && this.budget == budget && run0 == run && auth0 == budget.View()
    {
      this.run, this.budget, acts := run, budget, [];
      run0, auth0 := run, budget.View();
    }

    /** One step that leaves the campaign alone. */
    method Take(ghost act: Action, next: Run)
      requires Valid() && Leads(run, budget.View(), act, next, budget.View())
      modifies this`run, this`acts
      ensures Valid() && run == next && run.cfg == old(run.cfg)
    {
      hide Play, Keeps, Sound, LoopOk, Step, Leads, TablesMove, Progress, Flows;
      Took(run0, auth0, acts, run, budget.View(), act, next, budget.View());
      StepLoop(run, budget.View(), next, Drawn(act));
      run, acts := next, acts + [act];
    }

    /** Build the request of row `k`, make its prompt and store it. */
    method Prepare(k: nat, revisionInput: Option<External>) returns (end: Option<End>)
      requires Valid() && run.pc == At(k) && NeedsCall(run, k)
      modifies this`run, this`acts
      ensures Valid() && run.cfg == old(run.cfg) && run.db == old(run.db) && run.invoked == old(run.invoked)
      ensures end == Some(PromptRefused) <==> Unpromptable(old(run), k, revisionInput)
      ensures end == Some(Waiting) <==> Awaits(old(run), k, revisionInput)
      ensures match end
        case None => run.pc.Built? && PcRow(run.pc) == k && Callable(run, k, revisionInput)
        case Some(e) => run == old(run) && (e == PromptRefused || e == Waiting)
    {
      hide Play, Keeps, Sound, LoopOk, NeedsCall, DoPrepare, Leads, Unpromptable, Awaits, Callable;
      PrepareTurns(run, budget.View(), revisionInput);
      var prepared := DoPrepare(run, revisionInput);
      if prepared.NoPrompt? {
        return Some(PromptRefused);
      } else if prepared.Waits? {
        return Some(Waiting);
      }
      assert prepared.Ready? by { CallableOrNot(run, k, revisionInput); }
      Take(Action.Prepare(revisionInput), prepared.run);
      end := None;
    }

    /** Reserve what was built, or adopt its reservation; refused exactly when there is none and the caps are used
        up. */
    method Hold() returns (end: Option<End>)
      requires Valid() && run.pc.Built?
      modifies this`run, this`acts
      ensures Valid() && run.cfg == old(run.cfg) && run.invoked == old(run.invoked)
      ensures Local(old(run.db), run.db, PlanRow(run, old(PcRow(run.pc))).work)
      ensures end == if old(PlannedAt(run, PcRow(run.pc)) && !HasRoom(run)) then Some(End.NotAdmitted) else None
      ensures if end == None then run.pc.Held? && PcRow(run.pc) == old(PcRow(run.pc)) else run == old(run)
    {
      hide Play, Keeps, Sound, LoopOk, DoHold, Leads, HasRoom;
      UnusedExists(run.db.attempts.Keys + budget.reservations.Keys);
      var uuid :| uuid !in run.db.attempts && uuid !in budget.reservations;
      HoldTurns(run, budget.View(), uuid);
      var held := DoHold(run, uuid);
      if !held.Holds? {
        return Some(End.NotAdmitted);
      }
      Take(Action.Hold(uuid), held.run);
      end := None;
    }

    /** Take the shared reservation of the attempt at hand; one it already holds is granted as it stands. */
    method TakeFunds() returns (end: Option<End>)
      requires Valid() && run.pc.Held?
      modifies this`run, this`acts, budget`reservations
      ensures Valid()
      ensures end == None <==> old(Answer(run, budget.View())).Ok?
      ensures match end
        case None => run == old(run).(pc := Funded(old(PcRow(run.pc)), old(PcAttempt(run.pc))))
        case Some(e) =>
          && run == old(run) && budget.View() == old(budget.View())
          && PcAttempt(run.pc) !in budget.reservations && ClaimRefusal(run.cfg, budget.View(), e)
    {
      hide Play, Keeps, Sound, LoopOk, Admission, Leads, ClaimRefusal, ClaimEnd, ClaimFor, RequestOf, TablesMove,
        Progress, Flows;
      FundTurns(run, budget.View());
      ghost var before := budget.View();
      var claim := ClaimFor(run.cfg, run.pc.a, RequestOf(run.db, run.pc.a));
      var granted := budget.Reserve(claim);
      if granted.Err? {
        return Some(ClaimEnd(run.cfg, budget.tracking, granted.error));
      }
      var funded := run.(pc := Funded(run.pc.k, run.pc.a));
      Took(run0, auth0, acts, run, before, Fund, funded, budget.View());
      StepLoop(run, before, funded, {});
      run, acts := funded, acts + [Fund];
      end := None;
    }

    /** From the stored outcome to the end of the row, or a crash between any two steps. */
    method Deliver(mayCrash: bool) returns (end: Option<End>)
      requires Valid() && run.pc.Stored?
      modifies this`run, this`acts
      ensures Valid() && run.cfg == old(run.cfg) && run.invoked == old(run.invoked)
      ensures var k := old(PcRow(run.pc));
        && Local(old(run.db), run.db, PlanRow(run, k).work)
        && (if end == None then run.pc == At(k + 1) && Settled(run.db, PlanRow(run, k).work)
            else end == Some(Crashed) && mayCrash && Driving(run.pc) && PcRow(run.pc) == k)
    {
      hide Play, Keeps, Sound, LoopOk, Settled, InState, Leads, DoSettle, DoFill, DoClose, CloseAction;
      var crash: bool := *;
      if mayCrash && crash {
        return Some(Crashed);
      }
      SettleTurns(run, budget.View());
      Take(Settle, Done(DoSettle(run), run));
      crash := *;
      if mayCrash && crash {
        return Some(Crashed);
      }
      if run.pc.Opened? {
        FillTurns(run, budget.View());
        Take(Fill, Done(DoFill(run), run));
        crash := *;
        if mayCrash && crash {
          return Some(Crashed);
        }
      }
      CloseTurns(run, budget.View());
      Take(CloseAction(run), Done(DoClose(run), run));
      return None;
    }

    /** A funded attempt's call, to the end of its row or a crash between any two steps. */
    method Perform(mayCrash: bool) returns (end: Option<End>)
      requires Valid() && run.pc.Funded?
      modifies this`run, this`acts
      ensures Valid() && run.cfg == old(run.cfg)
      ensures var k := old(PcRow(run.pc));
        && Local(old(run.db), run.db, PlanRow(run, k).work)
        && (if end == None then run.pc == At(k + 1) && Settled(run.db, PlanRow(run, k).work)
            else end == Some(Crashed) && mayCrash && Driving(run.pc) && PcRow(run.pc) == k)
      ensures end == None ==> run.invoked == old(run.invoked) + [old(PcAttempt(run.pc))]
      ensures run.invoked == old(run.invoked) || run.invoked == old(run.invoked) + [old(PcAttempt(run.pc))]
    {
      hide Play, Keeps, Sound, LoopOk, Settled, DoLaunch, Judged, Leads;
      var crash: bool := *;
      if mayCrash && crash {
        return Some(Crashed);
      }
      LaunchTurns(run, budget.View());
      Take(Launch, Done(DoLaunch(run), run));
      crash := *;
      if mayCrash && crash {
        return Some(Crashed);
      }
      var reply: Reply := *;
      ReplyTurns(run, budget.View(), reply);
      Take(Invoke(reply), Done(DoInvoke(run, reply), run));
      crash := *;
      if mayCrash && crash {
        return Some(Crashed);
      }
      ReplyTurns(run, budget.View(), reply);
      Take(Save, Done(DoSave(run), run));
      end := Deliver(mayCrash);
    }

    /** Everything a due row takes: its request, its reservations, its call. Undisturbed it makes the call, or ends for
        the one reason that holds. */
    method Call(k: nat, revisionInput: Option<External>, mayCrash: bool) returns (end: Option<End>)
      requires Valid() && run.pc == At(k) && NeedsCall(run, k)
      modifies this`run, this`acts, budget`reservations
      ensures Valid() && run.cfg == old(run.cfg) && Local(old(run.db), run.db, PlanRow(run, k).work)
      ensures end == None ==> run.pc == At(k + 1) && |run.invoked| == |old(run.invoked)| + 1
      ensures end == Some(Waiting) <==> Awaits(old(run), k, revisionInput)
      ensures end == Some(PromptRefused) <==> Unpromptable(old(run), k, revisionInput)
      ensures end == Some(PromptRefused) || end == Some(Waiting) ==>
        run == old(run) && budget.View() == old(budget.View())
      ensures !mayCrash ==> (end == Some(End.NotAdmitted) <==> CapsRefuse(old(run), k, revisionInput))
      ensures Stopped(run, budget.View(), k, revisionInput, mayCrash, end) && end != Some(Paused)
      ensures end == None || end == Some(Crashed) || run.invoked == old(run.invoked)
      ensures |run.invoked| <= |old(run.invoked)| + 1
    {
      hide Play, Keeps, Sound, LoopOk, NeedsCall, Settled, Unpromptable, Awaits, Admits, InState, Callable, Answer,
        Uncharged, Total, ValidAmount, AmountUnits, ReservationCost, Refused;
      PromptReason(run, budget.View(), k, revisionInput);
      CallableOrNot(run, k, revisionInput);
      end := Prepare(k, revisionInput);
      if end.Some? {
        return;
      }
      var crash: bool := *;
      if mayCrash && crash {
        return Some(Crashed);
      }
      end := Hold();
      if end.Some? {
        return;
      }
      HeldIsCallable(run, budget.View(), revisionInput);
      crash := *;
      if mayCrash && crash {
        return Some(Crashed);
      }
      end := TakeFunds();
      if end.Some? {
        return;
      }
      end := Perform(mayCrash);
    }

    /** One turn of the loop. `None` goes on to the next row; `ran` says that a call was made. It pauses exactly when it
        is told to at a row that waits for its call; otherwise the prompt is refused exactly when the row is due and has
        none, and then nothing was reserved, charged, called or written. */
    method Turn(k: nat, pauseHere: bool, revisionInput: Option<External>, mayCrash: bool)
      returns (end: Option<End>, ran: bool)
      requires Valid() && run.pc == At(k) && k < |run.cfg.plan|
      modifies this`run, this`acts, budget`reservations
      ensures Valid() && run.cfg == old(run.cfg) && Local(old(run.db), run.db, PlanRow(run, k).work)
      ensures end == None ==> run.pc == At(k + 1) && |run.invoked| == |old(run.invoked)| + if ran then 1 else 0
      ensures end == None ==> (ran <==> old(NeedsCall(run, k))) && (ran ==> !pauseHere)
      ensures end == Some(Paused) <==> pauseHere && old(Open(run, k))
      ensures end == Some(PromptRefused) <==> !pauseHere && Unpromptable(old(run), k, revisionInput)
      ensures end == Some(Waiting) <==>
        !pauseHere && NeedsCall(old(run), k) && Awaits(old(run), k, revisionInput)
      ensures !mayCrash ==> (end == Some(End.NotAdmitted) <==> !pauseHere && CapsRefuse(old(run), k, revisionInput))
      ensures end == Some(PromptRefused) || end == Some(Waiting) || end == Some(Paused) ==>
        run == old(run) && budget.View() == old(budget.View())
      ensures Stopped(run, budget.View(), k, revisionInput, mayCrash, end)
      ensures end == None || end == Some(Crashed) || run.invoked == old(run.invoked)
      ensures |run.invoked| <= |old(run.invoked)| + (if pauseHere then 0 else 1)
    {
      hide Play, Keeps, Sound, LoopOk, NeedsCall, DoVisit, Settled, Leads, ClaimRefusal, HasRoom, Current, Awaits;
      ran := false;
      PlanRowHasState(run, budget.View(), k);
      var state := RowOf(run.db, PlanRow(run, k).work).state;
      if NeedsCall(run, k) {
        NeedsDeps(run, run, k);
      }
      if (state == Planned || state == Reserved) && pauseHere {
        return Some(Paused), false;
      }
      if NeedsCall(run, k) {
        end := Call(k, revisionInput, mayCrash);
        ran := end.None?;
      } else {
        VisitTurns(run, budget.View());
        Take(Visit, Done(DoVisit(run), run));
        return None, false;
      }
    }

    /**
     One drive of the run, resumed from whatever an earlier one left. It starts exactly when no receipt is torn; it
     makes at most `maxSteps` calls, and pauses only when it made all of them and a row waits for its call; `at` is the
     row it ended at, and `Reason` says why; finished, it leaves no row it would ever act on again. Unless it crashed,
     nothing is left in flight and what it leaves passes the check of everything saved.
     */
    method Drive(maxSteps: Option<nat>, revisionInput: Option<External>, mayCrash: bool)
      returns (end: End, ghost at: nat)
      requires Valid() && run.pc == Idle
      modifies this`run, this`acts, budget`reservations
      ensures Valid() && run.pc == Idle && run.cfg == old(run.cfg) && (end == Crashed ==> mayCrash)
      ensures end == Unreadable <==> !NoneTorn(old(run.receipts))
      ensures end == Unreadable ==> run == old(run) && budget.View() == old(budget.View())
      ensures end != Unreadable ==> Reason(run, budget.View(), at, revisionInput, end)
      ensures end != Unreadable && end != Crashed ==> Reports(run) && Quiescent(run.db)
      ensures match maxSteps
        case None => end != Paused
        case Some(most) =>
          && |run.invoked| <= |old(run.invoked)| + most
          && (end == Paused ==> |run.invoked| == |old(run.invoked)| + most)
    {
      hide Play, Keeps, Sound, LoopOk, DoResume, SettledUpTo, Local, Leads, RowReason, Reports, NoneTorn, Quiescent;
      end, at := Finished, 0;
      ReportsExactly(run, budget.View());
      if !Reports(run) {
        return Unreadable, 0;
      }
      ResumeTurns(run, budget.View());
      Take(Resume, Done(DoResume(run), run));
      var steps := 0;
      for k := 0 to |run.cfg.plan|
        invariant Valid() && run.pc == At(k) && run.cfg == old(run.cfg) && end == Finished
        invariant |run.invoked| == |old(run.invoked)| + steps && (maxSteps.Some? ==> steps <= maxSteps.value)
      {
        at := k;
        var stop, ran := Turn(k, maxSteps.Some? && steps >= maxSteps.value, revisionInput, mayCrash);
        if stop.Some? {
          end := stop.value;
          break;
        }
        if ran {
          steps := steps + 1;
        }
      }
      if end == Finished {
        at := |run.cfg.plan|;
      }
      var left: Remnant := *;
      LeavesItsReason(run, budget.View(), at, revisionInput, end, left);
      StopTurns(run, budget.View(), left);
      Take(Stop(left), DoStop(run, left));
    }
  }

  lemma CallableOrNot(run: Run, k: nat, revisionInput: Option<External>)
    requires NeedsCall(run, k)
    ensures k < |run.cfg.plan|
    ensures Callable(run, k, revisionInput) <==> !Awaits(run, k, revisionInput) && !Unpromptable(run, k, revisionInput)
  {
  }

  lemma StopTurns(run: Run, auth: Authority, left: Remnant)
    ensures Leads(run, auth, Stop(left), DoStop(run, left), auth)
  {
  }
}
