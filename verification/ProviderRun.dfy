/**
 A provider run as a sequence of small durable steps over its ledger, its object
 store, its receipt files and the shared campaign. A crash may fall between any two
 steps; the run may be resumed any number of times, retried once per attempt and
 reconciled.
 */
module ProviderRun {
  import opened Wrappers
  import opened Plans
  import opened LedgerTables
  import opened LedgerOps
  import opened Campaign
  import opened Policies
  import ReplayContract

  // ----- what is stored ------------------------------------------------------------------

  /** The exported input of a role: its messages, and the bodies of the drafts that come with it. */
  datatype Packet = Packet(messages: seq<ReplayContract.Message>, drafts: seq<string>)

  datatype Text = Text(content: string)

  /** A provider's answer as it arrived. */
  datatype Native = Native(key: int)

  /** A rendered review replay: the case, the two outputs it is bound to by their hashes, and its messages. */
  datatype External = External(
    caseId: Id, pinned: bool, draft: Text, review: Text, messages: seq<ReplayContract.Message>)

  /** The request of one work item: its own input, its parents' digests and outputs, the revision input. */
  datatype Envelope = Envelope(
    input: Packet, role: Role, work: Id, parents: map<Id, Digest>, outputs: map<Id, Text>, external: Option<External>)

  /** What is sent: the messages, and the role whose schema the answer must follow. */
  datatype Prompt = Prompt(messages: seq<ReplayContract.Message>, role: Role)

  datatype Status = Success | CallLimited | CallInvalid | CallUncertain

  /** `native` is absent when no answer arrived; `unsent` says that the connection failed without a request id. */
  datatype Reply = Reply(status: Status, output: Text, usage: Usage, native: Option<Native>, unsent: bool)

  datatype ResultRecord = ResultRecord(
    status: Status, output: Text, usage: Usage, request: Digest, parents: map<Id, Digest>, native: Option<Native>,
    unsent: bool)

  datatype Blob = EnvelopeBlob(envelope: Envelope) | ResultBlob(result: ResultRecord)

  type Objects = map<Digest, Blob>

  /** A receipt file: created but never filled, or naming its request and the stored outcome. */
  datatype File = TornFile | WholeFile(request: Digest, native: Digest)

  /** Receipt files by attempt, with a flag for the retry's. */
  type Files = map<(Id, bool), File>

  /**
   The frozen manifest of a run. `hash` stands for SHA-256 of the canonical bytes; `prompt` builds the messages of
   a request, or refuses them, or the request itself as too large for the store; `recover` reads a successful answer
   back from one that was kept as uncertain.
   */
  datatype Config = Config(
    hash: Blob -> Digest, prompt: (Row, Envelope) -> Option<Prompt>, recover: Native -> Option<(Text, Usage)>,
    run: Digest, config: Digest, provider: Id, policy: Policy, plan: seq<Row>, inputs: map<(Id, Role), Packet>)

  ghost predicate ValidConfig(cfg: Config) {
    && ValidPlan(cfg.plan)
    && ValidPolicy(cfg.policy)
    && (forall x, y :: cfg.hash(x) == cfg.hash(y) ==> x == y)
  }

  // ----- the process ---------------------------------------------------------------------

  /** How far the process got; everything but `Idle` is lost in a crash. */
  datatype Pc =
    | Idle
    | At(k: nat)
    | Built(k: nat, request: Digest)
    | Held(k: nat, a: Id)
    | Funded(k: nat, a: Id)
    | Launched(k: nat, a: Id)
    | Answered(k: nat, a: Id, result: ResultRecord)
    | Stored(k: nat, a: Id, result: ResultRecord)
    | Opened(k: nat, a: Id, result: ResultRecord)
    | Receipted(k: nat, a: Id, result: ResultRecord)
    | Recorded(k: nat, a: Id)
    | Restored(a: Id, digest: Digest, receipt: Digest)
    | Reconciled(a: Id)

  /** `invoked` lists the provider calls in order. */
  datatype Run = Run(cfg: Config, db: Db, objects: Objects, receipts: Files, invoked: seq<Id>, pc: Pc)

  /** The row, the attempt and the outcome the process is at; blank where it has none. */
  function PcRow(pc: Pc): nat {
    match pc
    case At(k) => k
    case Built(k, _) => k
    case Held(k, _) => k
    case Funded(k, _) => k
    case Launched(k, _) => k
    case Answered(k, _, _) => k
    case Stored(k, _, _) => k
    case Opened(k, _, _) => k
    case Receipted(k, _, _) => k
    case Recorded(k, _) => k
    case _ => 0
  }

  function PcAttempt(pc: Pc): Id {
    match pc
    case Held(_, a) => a
    case Funded(_, a) => a
    case Launched(_, a) => a
    case Answered(_, a, _) => a
    case Stored(_, a, _) => a
    case Opened(_, a, _) => a
    case Receipted(_, a, _) => a
    case Recorded(_, a) => a
    case Restored(a, _, _) => a
    case Reconciled(a) => a
    case _ => Id(0)
  }

  function PcResult(pc: Pc): ResultRecord {
    match pc
    case Answered(_, _, result) => result
    case Stored(_, _, result) => result
    case Opened(_, _, result) => result
    case Receipted(_, _, result) => result
    case _ => ResultRecord(CallUncertain, Text(""), FromOpenAI(None), Digest(0), map[], None, false)
  }

  function PcDigest(pc: Pc): Digest {
    match pc
    case Restored(_, digest, _) => digest
    case _ => Digest(0)
  }

  function PcReceipt(pc: Pc): Digest {
    match pc
    case Restored(_, _, receipt) => receipt
    case _ => Digest(0)
  }

  function PcRequest(pc: Pc): Digest {
    match pc
    case Built(_, request) => request
    case _ => Digest(0)
  }

  /** The next row. */
  function Onward(pc: Pc): Pc {
    At(PcRow(pc) + 1)
  }

  /** What a crash leaves of a receipt file that was created and not yet synced. */
  datatype Remnant = Gone | Torn | Whole

  datatype Action =
    | Resume
    | Stop(left: Remnant)
    | Visit
    | Prepare(revisionInput: Option<External>)
    | Hold(uuid: Id)
    | Fund
    | Launch
    | Invoke(reply: Reply)
    | Save
    | Settle
    | Fill
    | Conclude
    | Finish
    | Retry(attempt: Id, evidence: Digest)
    | Restore(attempt: Id)
    | Reconcile
    | FinishReconcile

  // ----- requests ------------------------------------------------------------------------

  function OutputOf(objects: Objects, digest: Digest): Text {
    if digest in objects && objects[digest].ResultBlob? then objects[digest].result.output else Text("")
  }

  function Parents(db: Db, deps: seq<Id>): map<Id, Digest> {
    map d | d in deps :: ResultDigest(db, d)
  }

  function Outputs(db: Db, objects: Objects, deps: seq<Id>): map<Id, Text> {
    map d | d in deps :: OutputOf(objects, ResultDigest(db, d))
  }

  predicate HasInput(run: Run, row: Row) {
    (row.caseId, row.role) in run.cfg.inputs
  }

  /** Rebuild the request of a plan row from custody; only a revision keeps the external input. */
  function Build(run: Run, row: Row, external: Option<External>): Envelope {
    Envelope(
      if HasInput(run, row) then run.cfg.inputs[(row.caseId, row.role)] else Packet([], []),
      row.role, row.work, Parents(run.db, row.deps), Outputs(run.db, run.objects, row.deps),
      if row.role == Revision then external else None)
  }

  /** Content addressing: the object is stored under its own digest. */
  function Put(run: Run, blob: Blob): Run {
    run.(objects := run.objects[run.cfg.hash(blob) := blob])
  }

  /** The external input saved in a reserved attempt's request. */
  function SavedExternal(run: Run, request: Digest): Option<External> {
    if request in run.objects && run.objects[request].EnvelopeBlob?
    then run.objects[request].envelope.external else None
  }

  /** A reserved attempt keeps the external input it was built with, whatever is passed now. */
  function ChosenExternal(run: Run, c: Event, revisionInput: Option<External>): Option<External> {
    if c.request.Some? then SavedExternal(run, c.request.value) else revisionInput
  }

  function SavedParents(objects: Objects, request: Digest): map<Id, Digest> {
    if request in objects && objects[request].EnvelopeBlob? then objects[request].envelope.parents else map[]
  }

  // ----- receipts ------------------------------------------------------------------------

  /** The name of an attempt's receipt now: a granted retry has a file of its own. */
  function Slot(db: Db, a: Id): (Id, bool) {
    (a, a in db.retries)
  }

  /** What a receipt leads to, if it can be read. */
  function ReadReceipt(run: Run, slot: (Id, bool), request: Digest): Option<ResultRecord> {
    if slot !in run.receipts || run.receipts[slot].TornFile? || run.receipts[slot].request != request then None
    else
      var native := run.receipts[slot].native;
      if native in run.objects && run.objects[native].ResultBlob? then Some(run.objects[native].result) else None
  }

  /** An outcome names its request and that request's parents. */
  predicate Bound(objects: Objects, request: Digest, result: ResultRecord) {
    && request in objects && objects[request].EnvelopeBlob?
    && result.request == request && result.parents == objects[request].envelope.parents
  }

  /** The success an uncertain outcome turns out to be, if it is one and verifies. */
  function Restoration(cfg: Config, receipt: ResultRecord): Option<ResultRecord> {
    if receipt.status != CallUncertain || receipt.native.None? then None
    else
      match cfg.recover(receipt.native.value)
      case None => None
      case Some((output, usage)) =>
        if Estimate(usage, cfg.policy).Err? then None
        else Some(ResultRecord(Success, output, usage, receipt.request, receipt.parents, receipt.native, false))
  }

  /** The request never left: a connection error, always kept as uncertain, at the provider that allows a retry. */
  predicate Unsent(cfg: Config, receipt: ResultRecord) {
    cfg.policy.provider == Anthropic && receipt.status == CallUncertain && receipt.native.None? && receipt.unsent
  }

  function FileAt(files: Files, f: (Id, bool)): Option<File> {
    if f in files then Some(files[f]) else None
  }

  /** The outcome that an attempt's present receipt names. */
  function Named(run: Run, a: Id): Option<ResultRecord> {
    match FileAt(run.receipts, Slot(run.db, a))
    case Some(WholeFile(_, native)) =>
      if native in run.objects && run.objects[native].ResultBlob? then Some(run.objects[native].result) else None
    case _ => None
  }

  /** The attempt's present receipt says that its request was never sent. */
  predicate NeverSent(run: Run, a: Id) {
    match Named(run, a)
    case None => false
    case Some(receipt) => Unsent(run.cfg, receipt)
  }

  // ----- the check of everything saved, before any command --------------------------------------

  /** The request rebuilt from custody is the stored one, and it still has its prompt. */
  predicate RequestReports(run: Run, row: Row, request: Digest) {
    && request in run.objects && run.objects[request].EnvelopeBlob?
    && var envelope := Build(run, row, run.objects[request].envelope.external);
      run.cfg.hash(EnvelopeBlob(envelope)) == request && run.cfg.prompt(row, envelope).Some?
  }

  /** A retried attempt's first receipt is the one its retry was granted for. */
  predicate RetryReports(run: Run, a: Id, request: Digest) {
    a in run.db.retries ==>
      && ReadReceipt(run, (a, false), request).Some?
      && run.receipts[(a, false)].native == run.db.retries[a].receipt
  }

  /** A failed or limited attempt has a receipt, and one that exists can be read and is bound to the request. */
  predicate ReceiptReports(run: Run, a: Id, request: Digest, state: State) {
    (state == Failed || state == Limited || Slot(run.db, a) in run.receipts) ==>
      var receipt := ReadReceipt(run, Slot(run.db, a), request);
      receipt.Some? && Bound(run.objects, request, receipt.value)
  }

  /** A saved result is a verified success bound to the request. */
  predicate GoodResult(cfg: Config, objects: Objects, request: Digest, digest: Digest) {
    && digest in objects && objects[digest].ResultBlob?
    && objects[digest].result.status == Success
    && Estimate(objects[digest].result.usage, cfg.policy).Ok?
    && Bound(objects, request, objects[digest].result)
  }

  /** A reconciled result is what its receipt restores to. */
  predicate EvidenceReports(run: Run, a: Id, request: Digest, digest: Digest) {
    a in run.db.reconciliations ==>
      var receipt := ReadReceipt(run, Slot(run.db, a), request);
      && receipt.Some? && run.receipts[Slot(run.db, a)].native == run.db.reconciliations[a].receipt
      && run.db.reconciliations[a].result == digest
      && digest in run.objects && run.objects[digest].ResultBlob?
      && Restoration(run.cfg, receipt.value) == Some(run.objects[digest].result)
  }

  predicate RowReports(run: Run, row: Row) {
    match Current(run.db, row.work)
    case None => true
    case Some(c) =>
      c.request.Some? && c.attempt.Some? ==>
        var a, request := c.attempt.value, c.request.value;
        && RequestReports(run, row, request)
        && RetryReports(run, a, request)
        && ReceiptReports(run, a, request, c.state)
        && (c.result.Some? ==>
              && GoodResult(run.cfg, run.objects, request, c.result.value)
              && EvidenceReports(run, a, request, c.result.value))
  }

  /** Every command starts with this check of all saved bindings, and raises when one of them fails. */
  predicate Reports(run: Run) {
    forall k | 0 <= k < |run.cfg.plan| :: RowReports(run, run.cfg.plan[k])
  }

  // ----- the steps of the driver ------------------------------------------------------------

  /** Row `k` of the plan; a blank one behind its end. */
  function PlanRow(run: Run, k: nat): Row {
    if k < |run.cfg.plan| then run.cfg.plan[k] else Row(Id(0), Id(0), Writer, [])
  }

  function OnOk(run: Run, r: Outcome, pc: Pc): Option<Run> {
    match r
    case Ok(db) => Some(run.(db := db, pc := pc))
    case Err(_) => None
  }

  /** Take the run lock, check what is saved, and mark whatever was interrupted as uncertain. */
  function DoResume(run: Run): Option<Run> {
    if run.pc != Idle || !Reports(run) then None else OnOk(run, Recover(run.db), At(0))
  }

  /** The outcome's receipt with its contents in it. */
  function Filled(run: Run): Files {
    match run.pc
    case Opened(_, a, result) =>
      run.receipts[Slot(run.db, a) := WholeFile(RequestOf(run.db, a), run.cfg.hash(ResultBlob(result)))]
    case _ => run.receipts
  }

  /** The process stops or dies: what is stored stays, but for a receipt file still being written. */
  function DoStop(run: Run, left: Remnant): Run {
    if !run.pc.Opened? then run.(pc := Idle)
    else
      match left
      case Gone => run.(pc := Idle, receipts := run.receipts - {Slot(run.db, run.pc.a)})
      case Torn => run.(pc := Idle)
      case Whole => run.(pc := Idle, receipts := Filled(run))
  }

  /** The row needs a call: it is planned or reserved, has its input, and its dependencies are completed. */
  predicate NeedsCall(run: Run, k: nat) {
    var w := PlanRow(run, k).work;
    && k < |run.cfg.plan|
    && (InState(run.db, w, Planned) || InState(run.db, w, Reserved))
    && HasInput(run, PlanRow(run, k)) && DepsCompleted(run.db, w)
  }

  /** Items that need no call: complete a saved result, pass over finished ones, skip the unavailable and blocked. */
  function DoVisit(run: Run): Option<Run> {
    if !(run.pc.At? && run.pc.k < |run.cfg.plan|) then None
    else
      var row, next := PlanRow(run, run.pc.k), At(run.pc.k + 1);
      match Current(run.db, row.work)
      case None => None
      case Some(c) =>
        if c.state == ResultSaved then
          if c.attempt.Some? then OnOk(run, CompleteAttempt(run.db, c.attempt.value), next) else None
        else if c.state != Planned && c.state != Reserved then Some(run.(pc := next))
        else if !HasInput(run, row) then OnOk(run, Skip(run.db, row.work, Unavailable, InputUnknown), next)
        else if !DepsCompleted(run.db, row.work) then
          OnOk(run, Skip(run.db, row.work, Blocked, Code.DependencyUnresolved), next)
        else None
  }

  /** The external input row `k` would be built with now. */
  function ExternalAt(run: Run, k: nat, revisionInput: Option<External>): Option<External> {
    match Current(run.db, PlanRow(run, k).work)
    case None => revisionInput
    case Some(c) => ChosenExternal(run, c, revisionInput)
  }

  function RequestAt(run: Run, k: nat, revisionInput: Option<External>): Envelope {
    Build(run, PlanRow(run, k), ExternalAt(run, k, revisionInput))
  }

  /** A revision waits for its review replay. */
  predicate Awaits(run: Run, k: nat, revisionInput: Option<External>) {
    PlanRow(run, k).role == Revision && ExternalAt(run, k, revisionInput).None?
  }

  /** The request of row `k` is due and no prompt can be built from it. */
  predicate Unpromptable(run: Run, k: nat, revisionInput: Option<External>) {
    && NeedsCall(run, k) && !Awaits(run, k, revisionInput)
    && run.cfg.prompt(PlanRow(run, k), RequestAt(run, k, revisionInput)).None?
  }

  datatype Preparation = Ready(run: Run) | NoCall | Waits | NoPrompt

  /** Build the request of an item whose turn has come, make its prompt, and store the request. */
  function DoPrepare(run: Run, revisionInput: Option<External>): Preparation {
    if !(run.pc.At? && run.pc.k < |run.cfg.plan|) || !NeedsCall(run, run.pc.k) then NoCall
    else
      var k := run.pc.k;
      if Awaits(run, k, revisionInput) then Waits
      else if Unpromptable(run, k, revisionInput) then NoPrompt
      else
        var blob := EnvelopeBlob(RequestAt(run, k, revisionInput));
        Ready(Put(run, blob).(pc := Built(k, run.cfg.hash(blob))))
  }

  datatype Holding = Holds(run: Run) | NoRequest | NotAdmitted | RequestMismatch | LedgerRefused

  /** The run's own policy admits one more attempt. */
  predicate HasRoom(run: Run) {
    Admits(run.cfg.policy, |run.db.attempts| + 1)
  }

  /** Reserve the built request locally, or adopt the reservation the item already has. */
  function DoHold(run: Run, uuid: Id): Holding {
    if !(run.pc.Built? && run.pc.k < |run.cfg.plan|) then NoRequest
    else
      var k, w := run.pc.k, PlanRow(run, run.pc.k).work;
      match Current(run.db, w)
      case None => NoRequest
      case Some(c) =>
        if c.state == Planned then
          if !HasRoom(run) then NotAdmitted
          else
            match LedgerOps.Reserve(run.db, w, run.pc.request, uuid, (n: nat) => Admits(run.cfg.policy, n))
            case Ok(db) => Holds(run.(db := db, pc := Held(k, uuid)))
            case Err(_) => LedgerRefused
        else if c.request != Some(run.pc.request) || c.attempt.None? then RequestMismatch
        else Holds(run.(pc := Held(k, c.attempt.value)))
  }

  /** What the run asks of the campaign for one attempt; recomputed identically on every resume. */
  function ClaimFor(cfg: Config, a: Id, request: Digest): Claim {
    Claim(a, cfg.run, request, cfg.config, cfg.provider, true, ReservationCost(cfg.policy))
  }

  /** The shared reservation, after the local one and before the start. */
  ghost function DoFund(run: Run, auth: Authority): Option<(Run, Authority)> {
    if !run.pc.Held? then None
    else
      match Admission(auth, ClaimFor(run.cfg, run.pc.a, RequestOf(run.db, run.pc.a)))
      case Ok(next) => Some((run.(pc := Funded(run.pc.k, run.pc.a)), next))
      case Err(_) => None
  }

  function DoLaunch(run: Run): Option<Run> {
    if !run.pc.Funded? then None else OnOk(run, StartAttempt(run.db, run.pc.a), Launched(run.pc.k, run.pc.a))
  }

  /** The outcome of a call; an answer whose usage does not verify is kept as uncertain, whatever it claims. */
  function Judged(run: Run, reply: Reply, request: Digest): ResultRecord {
    var status :=
      if Estimate(reply.usage, run.cfg.policy).Err? then CallUncertain else reply.status;
    ResultRecord(status, reply.output, reply.usage, request, SavedParents(run.objects, request), reply.native,
                 reply.unsent)
  }

  /** The one provider call; whatever comes back, the call happened. */
  function DoInvoke(run: Run, reply: Reply): Option<Run> {
    if !run.pc.Launched? then None
    else
      var a := run.pc.a;
      Some(run.(invoked := run.invoked + [a],
                pc := Answered(run.pc.k, a, Judged(run, reply, RequestOf(run.db, a)))))
  }

  function DoSave(run: Run): Option<Run> {
    if !run.pc.Answered? then None
    else Some(Put(run, ResultBlob(run.pc.result)).(pc := Stored(run.pc.k, run.pc.a, run.pc.result)))
  }

  /** Record a success; otherwise create the receipt file, which must not exist yet. */
  function DoSettle(run: Run): Option<Run> {
    if !run.pc.Stored? then None
    else if run.pc.result.status == Success then
      OnOk(run, RecordResult(run.db, run.pc.a, run.cfg.hash(ResultBlob(run.pc.result))), Recorded(run.pc.k, run.pc.a))
    else
      var slot := Slot(run.db, run.pc.a);
      if slot in run.receipts then None
      else Some(run.(receipts := run.receipts[slot := TornFile], pc := Opened(run.pc.k, run.pc.a, run.pc.result)))
  }

  /** Write the receipt and sync it. */
  function DoFill(run: Run): Option<Run> {
    if !run.pc.Opened? then None
    else Some(run.(receipts := Filled(run), pc := Receipted(run.pc.k, run.pc.a, run.pc.result)))
  }

  function DoConclude(run: Run): Option<Run> {
    if !run.pc.Receipted? then None
    else
      var next := At(run.pc.k + 1);
      if run.pc.result.status == CallUncertain then OnOk(run, Recover(run.db), next)
      else
        var limited := run.pc.result.status == CallLimited;
        OnOk(run, FailAttempt(run.db, run.pc.a, if limited then AdapterLimited else AdapterFailed, limited), next)
  }

  function DoFinish(run: Run): Option<Run> {
    if !run.pc.Recorded? then None else OnOk(run, CompleteAttempt(run.db, run.pc.a), At(run.pc.k + 1))
  }

  // ----- operator commands, under the same lock and after the same check ------------------------

  /** The operator confirms that an uncertain attempt never left; its receipt must be there and say so. */
  ghost function DoRetry(run: Run, a: Id, evidence: Digest): Option<Run> {
    var receipt := ReadReceipt(run, Slot(run.db, a), RequestOf(run.db, a));
    if run.pc != Idle || !Reports(run) || receipt.None? || !Unsent(run.cfg, receipt.value) then None
    else OnOk(run, AuthorizeRetry(run.db, a, run.receipts[Slot(run.db, a)].native, evidence), Idle)
  }

  /** Read a success back from the receipt of an uncertain or already recovered attempt, and store it. */
  function DoRestore(run: Run, a: Id): Option<Run> {
    if run.pc != Idle || !Reports(run) || a !in run.db.attempts then None
    else
      var w := run.db.attempts[a].work;
      if !(InState(run.db, w, Uncertain) || InState(run.db, w, ResultSaved) || InState(run.db, w, Completed)) then None
      else
        match ReadReceipt(run, Slot(run.db, a), RequestOf(run.db, a))
        case None => None
        case Some(receipt) =>
          match Restoration(run.cfg, receipt)
          case None => None
          case Some(result) =>
            var blob := ResultBlob(result);
            Some(Put(run, blob).(pc := Restored(a, run.cfg.hash(blob), run.receipts[Slot(run.db, a)].native)))
  }

  ghost function DoReconcile(run: Run): Option<Run> {
    if !run.pc.Restored? then None
    else OnOk(run, ReconcileResult(run.db, run.pc.a, run.pc.digest, run.pc.receipt), Reconciled(run.pc.a))
  }

  function DoFinishReconcile(run: Run): Option<Run> {
    if !run.pc.Reconciled? then None
    else if run.pc.a in run.db.attempts && InState(run.db, run.db.attempts[run.pc.a].work, ResultSaved)
    then OnOk(run, CompleteAttempt(run.db, run.pc.a), Idle)
    else Some(run.(pc := Idle))
  }

  // ----- one step ---------------------------------------------------------------------------------

  function Kept(r: Option<Run>, auth: Authority): Option<(Run, Authority)> {
    match r
    case None => None
    case Some(run) => Some((run, auth))
  }

  function Prepared(r: Preparation): Option<Run> {
    if r.Ready? then Some(r.run) else None
  }

  function HeldRun(r: Holding): Option<Run> {
    if r.Holds? then Some(r.run) else None
  }

  /** The effect of one action on a run and the campaign; `None` when the action cannot happen. */
  ghost function Step(run: Run, auth: Authority, act: Action): Option<(Run, Authority)> {
    match act
    case Resume => Kept(DoResume(run), auth)
    case Stop(left) => Some((DoStop(run, left), auth))
    case Visit => Kept(DoVisit(run), auth)
    case Prepare(external) => Kept(Prepared(DoPrepare(run, external)), auth)
    case Hold(uuid) => Kept(HeldRun(DoHold(run, uuid)), auth)
    case Fund => DoFund(run, auth)
    case Launch => Kept(DoLaunch(run), auth)
    case Invoke(reply) => Kept(DoInvoke(run, reply), auth)
    case Save => Kept(DoSave(run), auth)
    case Settle => Kept(DoSettle(run), auth)
    case Fill => Kept(DoFill(run), auth)
    case Conclude => Kept(DoConclude(run), auth)
    case Finish => Kept(DoFinish(run), auth)
    case Retry(a, evidence) => Kept(DoRetry(run, a, evidence), auth)
    case Restore(a) => Kept(DoRestore(run, a), auth)
    case Reconcile => Kept(DoReconcile(run), auth)
    case FinishReconcile => Kept(DoFinishReconcile(run), auth)
  }

  /** The run after what was done; the same when it could not be. */
  function Done(r: Option<Run>, run: Run): Run {
    match r
    case None => run
    case Some(next) => next
  }

  ghost function Stepped(run: Run, auth: Authority, act: Action): (Run, Authority) {
    match Step(run, auth, act)
    case None => (run, auth)
    case Some(next) => next
  }
}
