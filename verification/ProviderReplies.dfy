/**
 What was stored is what the provider said. In every history the outcome a process
 carries, the receipt it leaves and the result it saves are the last reply to the
 attempt, field by field; a recovered result is that reply's answer read back; and the
 one retry is granted exactly to an attempt whose last reply says it was never sent.
 */
module ProviderReplies {
  import opened Wrappers
  import opened Plans
  import opened LedgerTables
  import opened LedgerOps
  import opened LedgerRuns
  import opened Campaign
  import opened Policies
  import opened ProviderRun
  import opened ProviderInvariant
  import opened ProviderChanges
  import opened ProviderSafety
  import opened ProviderReport
  import opened ProviderWorld

  // ----- what an outcome repeats -----------------------------------------------------------------

  /** The outcome is the reply; it is uncertain, whatever the reply claims, when its usage is not one to accept. */
  predicate Carries(cfg: Config, result: ResultRecord, reply: Reply) {
    && result.output == reply.output && result.usage == reply.usage
    && result.native == reply.native && result.unsent == reply.unsent
    && result.status == if Reportable(reply.usage, cfg.policy) then reply.status else CallUncertain
  }

  predicate Repeats(cfg: Config, result: ResultRecord, said: Option<Reply>) {
    match said
    case None => false
    case Some(reply) => Carries(cfg, result, reply)
  }

  /** The result is the success that the receipt's native answer reads back as, with the receipt's own request. */
  predicate ReadsBack(cfg: Config, receipt: ResultRecord, result: ResultRecord) {
    && receipt.status == CallUncertain && result.status == Success && Reportable(result.usage, cfg.policy)
    && (match receipt.native
        case None => false
        case Some(native) => cfg.recover(native) == Some((result.output, result.usage)))
    && result.request == receipt.request && result.parents == receipt.parents && result.native == receipt.native
    && !result.unsent
  }

  lemma RestorationExactly(cfg: Config, receipt: ResultRecord, result: ResultRecord)
    ensures Restoration(cfg, receipt) == Some(result) <==> ReadsBack(cfg, receipt, result)
  {
    hide Estimate, Reportable;
    AcceptedExactly(result.usage, cfg.policy);
    if receipt.native.Some? && cfg.recover(receipt.native.value).Some? {
      AcceptedExactly(cfg.recover(receipt.native.value).value.1, cfg.policy);
    }
  }

  // ----- the last reply ------------------------------------------------------------------------------

  /** The run is at this attempt. */
  ghost predicate Calling(w: World, r: Id, a: Id) {
    r in w.runs && PcAttempt(w.runs[r].pc) == a
  }

  /** What was last replied to the attempt of a run, once this happened. */
  ghost function Heard(w: World, h: Happening, r: Id, a: Id, said: Option<Reply>): Option<Reply> {
    match h
    case Act(s, Invoke(reply)) => if s == r && Calling(w, r, a) && Possible(w, h) then Some(reply) else said
    case _ => said
  }

  /** What the provider last replied to the attempt of a run, in a history. */
  ghost function LastReply(tracking: bool, hs: seq<Happening>, r: Id, a: Id): Option<Reply> {
    if hs == [] then None
    else
      var front := hs[..|hs| - 1];
      Heard(History(tracking, front), hs[|hs| - 1], r, a, LastReply(tracking, front, r, a))
  }

  // ----- what a run has of it -------------------------------------------------------------------------

  /** The outcome an item's saved digest leads to. */
  function SavedOutcome(run: Run, w: Id): Option<ResultRecord> {
    var d := ResultDigest(run.db, w);
    if d in run.objects && run.objects[d].ResultBlob? then Some(run.objects[d].result) else None
  }

  predicate PcTold(run: Run, a: Id, said: Option<Reply>) {
    PcAttempt(run.pc) == a ==>
      && (run.pc.Answered? || run.pc.Stored? || run.pc.Opened? || run.pc.Receipted? ==>
            Repeats(run.cfg, PcResult(run.pc), said))
      && (run.pc.Receipted? ==> Named(run, a) == Some(PcResult(run.pc)))
  }

  predicate ReceiptTold(run: Run, a: Id, said: Option<Reply>) {
    match Named(run, a)
    case None => true
    case Some(receipt) => Repeats(run.cfg, receipt, said)
  }

  predicate NamedAs(run: Run, a: Id, status: Status) {
    match Named(run, a)
    case None => false
    case Some(receipt) => receipt.status == status
  }

  /** A saved result that was not recovered is the reply; a failed or limited item has the receipt that says so. */
  predicate RowTold(run: Run, a: Id, said: Option<Reply>) {
    a in run.db.attempts ==>
      var w := WorkOf(run.db, a);
      && (Saved(run.db, w) && a !in run.db.reconciliations ==>
            match SavedOutcome(run, w)
            case None => false
            case Some(result) => Repeats(run.cfg, result, said))
      && (InState(run.db, w, Limited) ==> NamedAs(run, a, CallLimited))
      && (InState(run.db, w, Failed) ==> NamedAs(run, a, CallInvalid))
  }

  predicate Told(run: Run, a: Id, said: Option<Reply>) {
    PcTold(run, a, said) && ReceiptTold(run, a, said) && RowTold(run, a, said)
  }

  // ----- a step that is no reply to the attempt -------------------------------------------------------

  lemma FileAttempt(run: Run, auth: Authority, f: (Id, bool))
    requires RunInv(run, auth) && f in run.receipts
    ensures f.0 in run.db.attempts && (f.1 ==> f.0 in run.db.retries)
  {
    hide Keeps, OutcomeOk, InState;
    InvReceipts(run, auth);
    assert FileOk(run.cfg, run.db, run.objects, run.receipts, f);
  }

  /** What a filled present receipt names is stored. */
  lemma NamesStored(run: Run, auth: Authority, a: Id)
    requires RunInv(run, auth) && FileAt(run.receipts, Slot(run.db, a)) != Some(TornFile)
    ensures Slot(run.db, a) in run.receipts ==> Named(run, a).Some?
  {
    hide Keeps, Dispatches, Bound, Estimate;
    if Slot(run.db, a) in run.receipts {
      InvReceipts(run, auth);
      assert FileOk(run.cfg, run.db, run.objects, run.receipts, Slot(run.db, a));
    }
  }

  /** A present receipt that is the same file names the same outcome. */
  lemma SameFile(run: Run, auth: Authority, later: Run, drawn: set<Id>, a: Id)
    requires RunInv(run, auth) && Changes(run, later, drawn) && Slot(later.db, a) == Slot(run.db, a)
    requires FileAt(later.receipts, Slot(run.db, a)) == FileAt(run.receipts, Slot(run.db, a))
    ensures Named(later, a) == Named(run, a)
  {
    hide Keeps, TablesMove, Progress, Slot;
    if FileAt(run.receipts, Slot(run.db, a)) != Some(TornFile) {
      NamesStored(run, auth, a);
    }
  }

  /** A present receipt is as before, gone, or the one just written of the outcome at hand. */
  lemma NamedMoves(run: Run, auth: Authority, later: Run, drawn: set<Id>, a: Id)
    requires RunInv(run, auth) && Changes(run, later, drawn) && Flows(run, later)
    ensures || Named(later, a) == Named(run, a) || Named(later, a) == None
            || (run.pc.Opened? && PcAttempt(run.pc) == a && Named(later, a) == Some(PcResult(run.pc)))
  {
    hide Keeps, Sane, RowMoves, KeysFrom, BlobFlows, NeverSent, Progress, HasRoom, ReceiptsOk, Estimate, Bound, PcOk,
      BuiltOk, InState;
    var f := Slot(later.db, a);
    assert FileFlows(run, later, f);
    if f in run.receipts {
      FileAttempt(run, auth, f);
    }
    if FileAt(later.receipts, f) != FileAt(run.receipts, f) {
      InvCarried(run, auth);
    } else if f == Slot(run.db, a) {
      SameFile(run, auth, later, drawn, a);
    }
  }

  /** Outside a call the present receipt stays, unless the retry is granted. */
  lemma NamedStays(run: Run, auth: Authority, later: Run, drawn: set<Id>, a: Id)
    requires RunInv(run, auth) && Changes(run, later, drawn) && Flows(run, later) && a in run.db.attempts
    requires !InState(run.db, WorkOf(run.db, a), InFlight) && !InState(later.db, WorkOf(run.db, a), Reserved)
    ensures Named(later, a) == Named(run, a) && (a in later.db.retries <==> a in run.db.retries)
  {
    hide Keeps, Sane, RowMoves, KeysFrom, BlobFlows, NeverSent, Progress, HasRoom, Current, Named;
    assert FileFlows(run, later, Slot(run.db, a));
    if Active(run.pc).Some? {
      ActiveAlone(run, auth);
    }
    SameFile(run, auth, later, drawn, a);
  }

  lemma PcStaysTold(run: Run, auth: Authority, later: Run, next: Authority, drawn: set<Id>, a: Id, said: Option<Reply>)
    requires RunInv(run, auth) && RunInv(later, next) && Changes(run, later, drawn) && Flows(run, later)
    requires PcTold(run, a, said) && (later.pc.Answered? ==> PcAttempt(later.pc) != a)
    ensures PcTold(later, a, said)
  {
    hide Keeps, Sane, TablesMove, Progress, Carries, FileFlows, BlobFlows, ReceiptsOk;
    if later.pc.Receipted? && PcAttempt(later.pc) == a {
      NewReceipt(run, auth, later, next, drawn);
    }
  }

  /** The receipt just filled names the outcome at hand. */
  lemma NewReceipt(run: Run, auth: Authority, later: Run, next: Authority, drawn: set<Id>)
    requires RunInv(run, auth) && RunInv(later, next) && Changes(run, later, drawn) && Flows(run, later)
    requires later.pc.Receipted?
    ensures Named(later, PcAttempt(later.pc)) == Some(PcResult(later.pc))
  {
    hide Keeps, Sane, RowMoves, KeysFrom, BlobFlows, NeverSent, Progress, HasRoom, ReceiptsOk, Estimate, Bound, PcOk,
      BuiltOk;
    var a := PcAttempt(later.pc);
    InvCarried(run, auth);
    InvReceipts(run, auth);
    InvReceipts(later, next);
    ActiveAlone(run, auth);
    assert FileFlows(run, later, Slot(later.db, a));
  }

  lemma ReceiptStaysTold(run: Run, auth: Authority, later: Run, drawn: set<Id>, a: Id, said: Option<Reply>)
    requires RunInv(run, auth) && Changes(run, later, drawn) && Flows(run, later) && Told(run, a, said)
    ensures ReceiptTold(later, a, said)
  {
    hide Keeps, TablesMove, Progress, Flows, Named, Repeats, RowTold;
    NamedMoves(run, auth, later, drawn, a);
  }

  /** A new attempt is reserved. */
  lemma NewIsReserved(run: Run, auth: Authority, later: Run, next: Authority, drawn: set<Id>, a: Id)
    requires RunInv(run, auth) && RunInv(later, next) && Changes(run, later, drawn)
    requires a in later.db.attempts && a !in run.db.attempts
    ensures InState(later.db, WorkOf(later.db, a), Reserved)
  {
    hide Keeps, Sane, KeysFrom, Progress, HasRoom, AttemptTurns, GrantedTo, AtHand, DepsCompleted;
    InvHealthy(later, next);
    HealthyAttempt(later.db, a);
    var w := WorkOf(later.db, a);
    assert RowMoves(run, later.db, w);
    if Current(run.db, w).Some? && RowOf(run.db, w).attempt.Some? {
      InvHealthy(run, auth);
      HealthySays(run.db);
      CurrentAttempt(run.db, w);
    }
  }

  /** A saved row keeps its result, and a newly saved one has the outcome at hand or was recovered. */
  lemma SavedMoves(run: Run, auth: Authority, later: Run, next: Authority, drawn: set<Id>, a: Id)
    requires RunInv(run, auth) && RunInv(later, next) && Changes(run, later, drawn)
    requires a in run.db.attempts && Saved(later.db, WorkOf(run.db, a)) && a !in later.db.reconciliations
    ensures var w := WorkOf(run.db, a);
      || (Saved(run.db, w) && a !in run.db.reconciliations && SavedOutcome(later, w) == SavedOutcome(run, w))
      || (run.pc.Stored? && PcAttempt(run.pc) == a && SavedOutcome(later, w) == Some(PcResult(run.pc)))
  {
    hide Keeps, Sane, KeysFrom, Progress, HasRoom, GrantedTo, AtHand, DepsCompleted, Estimate, Bound, PcOk, BuiltOk;
    var w := WorkOf(run.db, a);
    InvHealthy(run, auth);
    HealthyAttempt(run.db, a);
    assert RowMoves(run, later.db, w);
    InvCarried(run, auth);
    if Saved(run.db, w) {
      SavedIsGood(run, auth, w);
    }
  }

  lemma RowStaysTold(run: Run, auth: Authority, later: Run, next: Authority, drawn: set<Id>, a: Id, said: Option<Reply>)
    requires RunInv(run, auth) && RunInv(later, next) && Changes(run, later, drawn) && Flows(run, later)
    requires Told(run, a, said)
    ensures RowTold(later, a, said)
  {
    hide Keeps, TablesMove, Progress, Flows, Named, Repeats, Current, SavedOutcome, ReceiptTold;
    if a in later.db.attempts {
      if a !in run.db.attempts {
        NewIsReserved(run, auth, later, next, drawn, a);
      } else {
        SameItem(run, later, drawn, a);
        var w := WorkOf(run.db, a);
        if Saved(later.db, w) && a !in later.db.reconciliations {
          SavedMoves(run, auth, later, next, drawn, a);
        }
        if InState(later.db, w, Limited) {
          FailureTold(run, auth, later, next, drawn, a, said, Limited, CallLimited);
        }
        if InState(later.db, w, Failed) {
          FailureTold(run, auth, later, next, drawn, a, said, Failed, CallInvalid);
        }
      }
    }
  }

  lemma SameItem(run: Run, later: Run, drawn: set<Id>, a: Id)
    requires Changes(run, later, drawn) && a in run.db.attempts
    ensures a in later.db.attempts && WorkOf(later.db, a) == WorkOf(run.db, a)
  {
    hide RowMoves, Progress, GrantedTo, HasRoom;
  }

  /** A failed row has its receipt still, and a newly failed one the receipt of the outcome at hand. */
  lemma FailureTold(run: Run, auth: Authority, later: Run, next: Authority, drawn: set<Id>, a: Id, said: Option<Reply>,
                    state: State, status: Status)
    requires RunInv(run, auth) && RunInv(later, next) && Changes(run, later, drawn) && Flows(run, later)
    requires Told(run, a, said) && a in run.db.attempts && InState(later.db, WorkOf(run.db, a), state)
    requires (state == Limited && status == CallLimited) || (state == Failed && status == CallInvalid)
    ensures NamedAs(later, a, status)
  {
    hide Keeps, Sane, Progress, Flows, Named, Repeats, SavedOutcome, ReceiptTold, KeysFrom, GrantedTo, HasRoom,
      AtHand, DepsCompleted;
    InvHealthy(run, auth);
    HealthyAttempt(run.db, a);
    assert RowMoves(run, later.db, WorkOf(run.db, a));
    if InState(run.db, WorkOf(run.db, a), state) {
      NamedStays(run, auth, later, drawn, a);
    } else {
      ReceiptKept(run, auth, later, next, drawn, a);
    }
  }

  /** The receipt of a call that has just failed is the filled one. */
  lemma ReceiptKept(run: Run, auth: Authority, later: Run, next: Authority, drawn: set<Id>, a: Id)
    requires RunInv(run, auth) && RunInv(later, next) && Changes(run, later, drawn) && Flows(run, later)
    requires a in run.db.attempts && run.pc.Receipted? && Failing(later.db, WorkOf(run.db, a))
    ensures Named(later, a) == Named(run, a)
  {
    hide Keeps, Sane, RowMoves, BlobFlows, NeverSent, Progress, HasRoom, Named, OutcomeOk, Dispatches, RetriesOk,
      SavesOk, ReconciliationsOk;
    InvReceipts(later, next);
    SameItem(run, later, drawn, a);
    var f := Slot(later.db, a);
    assert FileFlows(run, later, f);
    assert FileOk(later.cfg, later.db, later.objects, later.receipts, f);
    if f in run.receipts {
      FileAttempt(run, auth, f);
    }
    SameFile(run, auth, later, drawn, a);
  }

  lemma StepTold(run: Run, auth: Authority, later: Run, next: Authority, drawn: set<Id>, a: Id, said: Option<Reply>)
    requires RunInv(run, auth) && RunInv(later, next) && Changes(run, later, drawn) && Flows(run, later)
    requires Told(run, a, said) && (later.pc.Answered? ==> PcAttempt(later.pc) != a)
    ensures Told(later, a, said)
  {
    hide Keeps, Changes, Flows, PcTold, ReceiptTold, RowTold;
    PcStaysTold(run, auth, later, next, drawn, a, said);
    ReceiptStaysTold(run, auth, later, drawn, a, said);
    RowStaysTold(run, auth, later, next, drawn, a, said);
  }

  // ----- a reply ---------------------------------------------------------------------------------------

  /** When a reply arrives it is what the process carries; no receipt or result of its attempt is there yet. */
  lemma ReplyIsTold(run: Run, auth: Authority, later: Run, next: Authority, reply: Reply)
    requires RunInv(run, auth) && RunInv(later, next) && DoInvoke(run, reply) == Some(later)
    ensures Told(later, PcAttempt(run.pc), Some(reply))
  {
    hide Keeps, Sane, Estimate, Reportable, ReceiptsOk, SavedOutcome;
    AcceptedExactly(reply.usage, run.cfg.policy);
    InvReceipts(run, auth);
    PlaceSays(run, auth);
  }

  /** Only a reply makes the process carry an answer. */
  lemma AnsweredByReply(run: Run, auth: Authority, act: Action, later: Run, next: Authority)
    requires Step(run, auth, act) == Some((later, next))
    ensures match act
      case Invoke(reply) => DoInvoke(run, reply) == Some(later) && PcAttempt(later.pc) == PcAttempt(run.pc)
      case _ => !later.pc.Answered?
  {
    hide Recover, CompleteAttempt, Skip, LedgerOps.Reserve, Admission, StartAttempt, RecordResult, FailAttempt,
      AuthorizeRetry, ReconcileResult, RequestAt, DepsCompleted, Current, Reports, ReadReceipt, NeedsCall, Awaits,
      Unpromptable, Restoration, InState, Judged;
  }

  /** In every history: what a run has of an attempt is the last reply to it. */
  lemma {:induction false} EveryRunIsTold(tracking: bool, hs: seq<Happening>, r: Id, run: Run, a: Id)
    requires Has(History(tracking, hs), r, run)
    ensures Told(run, a, LastReply(tracking, hs, r, a))
  {
    hide WorldInv, Possible, Next, Changes, Flows, Keeps, Step, Told;
    if hs != [] {
      var front, h := hs[..|hs| - 1], hs[|hs| - 1];
      var w := History(tracking, front);
      EveryHistoryIsSafe(tracking, front);
      EveryHistoryIsSafe(tracking, hs);
      RunsAreSafe(History(tracking, hs), r, run);
      if Possible(w, h) {
        HappeningKeeps(w, h);
        assert Turns(w, h, r);
      }
      if r in w.runs {
        EveryRunIsTold(tracking, front, r, w.runs[r], a);
        RunsAreSafe(w, r, w.runs[r]);
        if Possible(w, h) {
          TurnIsTold(w, h, r, w.runs[r], run, a, LastReply(tracking, front, r, a));
        }
      } else {
        FreshIsTold(run.cfg, a, LastReply(tracking, hs, r, a));
      }
    }
  }

  lemma FreshIsTold(cfg: Config, a: Id, said: Option<Reply>)
    ensures Told(FreshRun(cfg), a, said)
  {
    hide Created, Current;
    FreshState(cfg.plan);
  }

  /** One more happening, to a run that was there. */
  lemma TurnIsTold(w: World, h: Happening, r: Id, before: Run, run: Run, a: Id, said: Option<Reply>)
    requires Has(w, r, before) && Has(Next(w, h), r, run) && Possible(w, h) && Turns(w, h, r)
    requires RunInv(before, w.auth) && RunInv(run, Next(w, h).auth) && Told(before, a, said)
    ensures Told(run, a, Heard(w, h, r, a, said))
  {
    hide WorldInv, Changes, Flows, Keeps, FreshRun, Step, Told;
    if h.Act? && h.r == r {
      var act, next := h.act, Next(w, h).auth;
      assert Step(before, w.auth, act) == Some(Stepped(before, w.auth, act));
      AnsweredByReply(before, w.auth, act, run, next);
      if act.Invoke? && PcAttempt(before.pc) == a {
        ReplyIsTold(before, w.auth, run, next, act.reply);
      } else if run != before {
        StepTold(before, w.auth, run, next, Drawn(act), a, said);
      }
    }
  }

  // ----- what that makes of results, retries and recoveries ---------------------------------------------

  /** A reconciled item holds the success that its receipt's native answer reads back as. */
  lemma ReconciledReadsBack(run: Run, auth: Authority, a: Id)
    requires RunInv(run, auth) && a in run.db.reconciliations
    ensures a in run.db.attempts && RecoveredAs(run, a, SavedOutcome(run, WorkOf(run.db, a)))
  {
    hide Keeps, FilesOk, RetriesOk, FailuresOk, SavesOk, Restoration, ReadsBack;
    InvReceipts(run, auth);
    assert ReconciledOk(run.cfg, run.db, run.objects, run.receipts, a);
    RestorationExactly(run.cfg, Named(run, a).value, SavedOutcome(run, WorkOf(run.db, a)).value);
  }

  /** The outcome is the success that the attempt's present receipt reads back as. */
  predicate RecoveredAs(run: Run, a: Id, outcome: Option<ResultRecord>) {
    match (Named(run, a), outcome)
    case (Some(receipt), Some(result)) => ReadsBack(run.cfg, receipt, result)
    case _ => false
  }

  /** The provider's last word on the attempt was this, and its usage is one to accept. */
  predicate LastSaid(cfg: Config, said: Option<Reply>, status: Status) {
    match said
    case None => false
    case Some(reply) => reply.status == status && Reportable(reply.usage, cfg.policy)
  }

  /** What the provider's last word reads back as, though it was uncertain or its usage not one to accept. */
  predicate SaysSuccess(cfg: Config, said: Option<Reply>, output: Text, usage: Usage) {
    match said
    case None => false
    case Some(reply) =>
      && (reply.status == CallUncertain || !Reportable(reply.usage, cfg.policy)) && Reportable(usage, cfg.policy)
      && match reply.native
         case None => false
         case Some(native) => cfg.recover(native) == Some((output, usage))
  }

  /** In every history a receipt is the last reply, bound to the attempt's own request; a saved result is that reply, a
      recovered one what its native answer reads back as; and an item ends limited or failed only on that word. */
  lemma EveryOutcomeIsItsReply(tracking: bool, hs: seq<Happening>, r: Id, run: Run, a: Id)
    requires Has(History(tracking, hs), r, run) && a in run.db.attempts
    ensures var said, w := LastReply(tracking, hs, r, a), WorkOf(run.db, a);
      && (match Named(run, a)
          case None => true
          case Some(receipt) => Repeats(run.cfg, receipt, said) && Bound(run.objects, RequestOf(run.db, a), receipt))
      && (Saved(run.db, w) ==>
            match SavedOutcome(run, w)
            case None => false
            case Some(result) =>
              && result.status == Success && Bound(run.objects, RequestOf(run.db, a), result)
              && if a in run.db.reconciliations then SaysSuccess(run.cfg, said, result.output, result.usage)
                 else Repeats(run.cfg, result, said) && LastSaid(run.cfg, said, Success))
      && (InState(run.db, w, Limited) ==> LastSaid(run.cfg, said, CallLimited))
      && (InState(run.db, w, Failed) ==> LastSaid(run.cfg, said, CallInvalid))
  {
    hide WorldInv, History, Keeps, Sane, LastReply, Bound, Reportable, Estimate;
    EveryRunIsTold(tracking, hs, r, run, a);
    EveryHistoryIsSafe(tracking, hs);
    var auth := History(tracking, hs).auth;
    RunsAreSafe(History(tracking, hs), r, run);
    ReceiptIsBound(run, auth, a);
    SavedIsBound(run, auth, a);
    if a in run.db.reconciliations {
      ReconciledReadsBack(run, auth, a);
    }
  }

  lemma ReceiptIsBound(run: Run, auth: Authority, a: Id)
    requires RunInv(run, auth) && a in run.db.attempts
    ensures match Named(run, a)
      case None => true
      case Some(receipt) => receipt.status != Success && Bound(run.objects, RequestOf(run.db, a), receipt)
  {
    hide Keeps, Dispatches, Bound, Estimate;
    InvReceipts(run, auth);
    if Slot(run.db, a) in run.receipts {
      assert FileOk(run.cfg, run.db, run.objects, run.receipts, Slot(run.db, a));
    }
  }

  lemma SavedIsBound(run: Run, auth: Authority, a: Id)
    requires RunInv(run, auth) && a in run.db.attempts
    ensures Saved(run.db, WorkOf(run.db, a)) ==>
      match SavedOutcome(run, WorkOf(run.db, a))
      case None => false
      case Some(result) => result.status == Success && Bound(run.objects, RequestOf(run.db, a), result)
  {
    hide Keeps, Sane, Bound, Estimate;
    InvHealthy(run, auth);
    HealthyAttempt(run.db, a);
    if Saved(run.db, WorkOf(run.db, a)) {
      SavedIsGood(run, auth, WorkOf(run.db, a));
    }
  }

  /** The provider's last word was that the request was never sent, at the provider that allows a retry. */
  predicate SaidUnsent(cfg: Config, said: Option<Reply>) {
    match said
    case None => false
    case Some(reply) =>
      && cfg.policy.provider == Anthropic && reply.unsent && reply.native.None?
      && (reply.status == CallUncertain || !Reportable(reply.usage, cfg.policy))
  }

  /** In every history the retry is granted exactly on an idle run without torn receipts, to an uncertain attempt that
      had none, has its receipt, and whose last reply says that the request was never sent. */
  lemma RetryIsForUnsent(tracking: bool, hs: seq<Happening>, r: Id, run: Run, a: Id, evidence: Digest)
    requires Has(History(tracking, hs), r, run)
    ensures Possible(History(tracking, hs), Act(r, Action.Retry(a, evidence))) <==>
      && run.pc == Idle && NoneTorn(run.receipts) && a in run.db.attempts && a !in run.db.retries
      && InState(run.db, WorkOf(run.db, a), Uncertain) && Named(run, a).Some?
      && SaidUnsent(run.cfg, LastReply(tracking, hs, r, a))
  {
    hide WorldInv, History, Keeps, LastReply, Reportable, Reports, NoneTorn, InState, AuthorizeRetry, Named, PcTold,
      RowTold, ReadReceipt;
    EveryRunIsTold(tracking, hs, r, run, a);
    EveryHistoryIsSafe(tracking, hs);
    RunsAreSafe(History(tracking, hs), r, run);
    if run.pc == Idle {
      RetriesExactly(run, History(tracking, hs).auth, a, evidence);
    }
  }

  /** In every history an attempt is read back exactly on an idle run without torn receipts, when it is uncertain or was
      saved, has its receipt, and its last reply reads as a success. */
  lemma RecoveryIsForAnswered(tracking: bool, hs: seq<Happening>, r: Id, run: Run, a: Id)
    requires Has(History(tracking, hs), r, run)
    ensures Possible(History(tracking, hs), Act(r, Restore(a))) <==>
      && run.pc == Idle && NoneTorn(run.receipts) && a in run.db.attempts
      && Recoverable(run.db, WorkOf(run.db, a)) && Named(run, a).Some?
      && exists output, usage :: SaysSuccess(run.cfg, LastReply(tracking, hs, r, a), output, usage)
  {
    hide WorldInv, History, Keeps, LastReply, Reportable, Reports, NoneTorn, InState, Named, PcTold, RowTold,
      ReadReceipt, Restoration;
    EveryRunIsTold(tracking, hs, r, run, a);
    EveryHistoryIsSafe(tracking, hs);
    RunsAreSafe(History(tracking, hs), r, run);
    if run.pc == Idle {
      RestoresExactly(run, History(tracking, hs).auth, a);
    }
    if Named(run, a).Some? {
      var receipt, said := Named(run, a).value, LastReply(tracking, hs, r, a);
      forall result | Restoration(run.cfg, receipt) == Some(result)
        ensures SaysSuccess(run.cfg, said, result.output, result.usage)
      {
        RestorationExactly(run.cfg, receipt, result);
      }
      forall output, usage | SaysSuccess(run.cfg, said, output, usage) ensures Restoration(run.cfg, receipt).Some? {
        RestorationExactly(run.cfg, receipt, ResultRecord(Success, output, usage, receipt.request, receipt.parents,
                                                          receipt.native, false));
      }
    }
  }
}
