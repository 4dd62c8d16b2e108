/**
 The operations of the ledger on the stored tables. Each is one transaction: its
 own checks in order, then the inserts with the database's guards. An error leaves
 the tables as they were.
 */
module LedgerOps {
  import opened Wrappers
  import opened Plans
  import opened LedgerTables
  import opened LedgerAudit
  import Sorting

  /** `GuardAborted` is an insert refused by a constraint or trigger after the operation's own checks passed. */
  datatype Error =
    | UnknownWork | UnknownAttempt | InvalidTransition | InvalidState | InvalidCode
    | DependencyUnresolved | AdmissionExhausted
    | RetryAlreadyUsed | ReconciliationMismatch
    | GuardAborted | Corrupt

  type Outcome = Result<Db, Error>

  /** A new ledger: version 1, every item planned, in plan order. */
  function Created(plan: seq<Row>): Db {
    Db(1, plan, map[], seq(|plan|, i requires 0 <= i < |plan| => PlannedEvent(i, plan[i].work)), map[], map[])
  }

  function PlannedEvent(i: nat, w: Id): Event {
    Event(i + 1, w, Planned, None, None, None, None)
  }

  function Appended(r: Option<Db>): Outcome {
    match r
    case None => Err(GuardAborted)
    case Some(db) => Ok(db)
  }

  /** Some dependency has a state row that is not completed. */
  predicate Unresolved(db: Db, w: Id) {
    exists d | d in DepsOf(db.plan, w) :: Current(db, d).Some? && Current(db, d).value.state != Completed
  }

  /** Reserve a planned item under a freshly drawn attempt id; `admit` is the run policy's verdict on the new count. */
  function Reserve(db: Db, w: Id, request: Digest, uuid: Id, admit: nat -> bool): Outcome {
    match Current(db, w)
    case None => Err(UnknownWork)
    case Some(c) =>
      if c.state != Planned then Err(InvalidTransition)
      else if Unresolved(db, w) then Err(Error.DependencyUnresolved)
      else if !admit(|db.attempts| + 1) then Err(AdmissionExhausted)
      else
        match InsertAttempt(db, uuid, Attempt(w, request))
        case None => Err(GuardAborted)
        case Some(db1) => Appended(InsertEvent(db1, w, Reserved, Some(uuid), Some(request), None, None))
  }

  /** The common step of an attempt from `source` to `target`. */
  function Transition(db: Db, a: Id, source: State, target: State, result: Option<Digest>, code: Option<Code>): Outcome
  {
    if a !in db.attempts then Err(UnknownAttempt)
    else
      match Current(db, db.attempts[a].work)
      case None => Err(UnknownWork)
      case Some(c) =>
        if c.state != source || c.attempt != Some(a) then Err(InvalidTransition)
        else
          var digest := if target == Completed then c.result else result;
          Appended(InsertEvent(db, c.work, target, Some(a), c.request, digest, code))
  }

  function StartAttempt(db: Db, a: Id): Outcome {
    Transition(db, a, Reserved, InFlight, None, None)
  }

  function RecordResult(db: Db, a: Id, result: Digest): Outcome {
    Transition(db, a, InFlight, ResultSaved, Some(result), None)
  }

  function CompleteAttempt(db: Db, a: Id): Outcome {
    Transition(db, a, ResultSaved, Completed, None, None)
  }

  function FailAttempt(db: Db, a: Id, code: Code, limited: bool): Outcome {
    if !IsFailureCode(code) then Err(InvalidCode)
    else Transition(db, a, InFlight, if limited then Limited else Failed, None, Some(code))
  }

  function Skip(db: Db, w: Id, state: State, code: Code): Outcome {
    if state != Unavailable && state != Blocked then Err(InvalidState)
    else if !IsSkipCode(code) then Err(InvalidCode)
    else
      match Current(db, w)
      case None => Err(UnknownWork)
      case Some(c) =>
        if c.state != Planned then Err(InvalidTransition)
        else Appended(InsertEvent(db, w, state, None, None, None, Some(code)))
  }

  // ----- recovery ---------------------------------------------------------------------

  function InFlightIn(db: Db, rows: seq<Row>): seq<Id> {
    if rows == [] then []
    else
      var last := rows[|rows| - 1].work;
      InFlightIn(db, rows[..|rows| - 1]) + (if InState(db, last, InFlight) then [last] else [])
  }

  /** The in-flight items in identifier order. */
  function InFlightWorks(db: Db): seq<Id> {
    Sorting.SortBy(InFlightIn(db, db.plan), (x: Id, y: Id) => x.key > y.key)
  }

  /** Mark the listed items uncertain, one after the other. */
  function MarkUncertain(db: Db, works: seq<Id>): Outcome
    decreases |works|
  {
    if works == [] then Ok(db)
    else
      match Current(db, works[0])
      case None => Err(UnknownWork)
      case Some(c) =>
        match InsertEvent(db, works[0], Uncertain, c.attempt, c.request, None, Some(Interrupted))
        case None => Err(GuardAborted)
        case Some(db1) => MarkUncertain(db1, works[1..])
  }

  function Recover(db: Db): Outcome {
    MarkUncertain(db, InFlightWorks(db))
  }

  // ----- operator recovery --------------------------------------------------------------

  ghost function Verified(db: Db): Outcome {
    if Accepts(db) then Ok(db) else Err(Corrupt)
  }

  function Upgraded(db: Db, version: nat): Db {
    if db.version < version then db.(version := version) else db
  }

  /** Grant the one unsent retry of an uncertain attempt. */
  ghost function AuthorizeRetry(db: Db, a: Id, receipt: Digest, evidence: Digest): Outcome {
    match RowOfAttempt(db, db.plan, a)
    case None => Err(InvalidTransition)
    case Some(c) =>
      if c.state != Uncertain then Err(InvalidTransition)
      else if db.version >= 3 && a in db.retries then Err(RetryAlreadyUsed)
      else
        match InsertRetry(Upgraded(db, 3), a, Retry(c.id, receipt, evidence))
        case None => Err(GuardAborted)
        case Some(db1) =>
          match InsertEvent(db1, c.work, Reserved, Some(a), c.request, None, None)
          case None => Err(GuardAborted)
          case Some(db2) => Verified(db2)
  }

  /** Record a result recovered from a saved receipt; repeating it identically changes nothing. */
  ghost function ReconcileResult(db: Db, a: Id, result: Digest, receipt: Digest): Outcome {
    match RowOfAttempt(db, db.plan, a)
    case None => Err(InvalidTransition)
    case Some(c) =>
      if db.version >= 2 && a in db.reconciliations then
        if db.reconciliations[a] == Reconciliation(receipt, result) then Ok(db) else Err(ReconciliationMismatch)
      else if c.state != Uncertain then Err(InvalidTransition)
      else
        match InsertReconciliation(Upgraded(db, 2), a, Reconciliation(receipt, result))
        case None => Err(GuardAborted)
        case Some(db1) =>
          match InsertEvent(db1, c.work, ResultSaved, Some(a), c.request, Some(result), None)
          case None => Err(GuardAborted)
          case Some(db2) => Verified(db2)
  }

  // ----- arbitrary use --------------------------------------------------------------------

  datatype Op =
    | OpReserve(work: Id, request: Digest, uuid: Id, admit: nat -> bool)
    | OpStart(attempt: Id)
    | OpRecord(attempt: Id, result: Digest)
    | OpComplete(attempt: Id)
    | OpFail(attempt: Id, code: Code, limited: bool)
    | OpSkip(work: Id, state: State, code: Code)
    | OpRecover
    | OpRetry(attempt: Id, receipt: Digest, evidence: Digest)
    | OpReconcile(attempt: Id, result: Digest, receipt: Digest)

  ghost function Apply(db: Db, op: Op): Outcome {
    match op
    case OpReserve(w, request, uuid, admit) => Reserve(db, w, request, uuid, admit)
    case OpStart(a) => StartAttempt(db, a)
    case OpRecord(a, result) => RecordResult(db, a, result)
    case OpComplete(a) => CompleteAttempt(db, a)
    case OpFail(a, code, limited) => FailAttempt(db, a, code, limited)
    case OpSkip(w, state, code) => Skip(db, w, state, code)
    case OpRecover => Recover(db)
    case OpRetry(a, receipt, evidence) => AuthorizeRetry(db, a, receipt, evidence)
    case OpReconcile(a, result, receipt) => ReconcileResult(db, a, result, receipt)
  }

  /** The tables after one call: an error rolls back. */
  ghost function After(db: Db, op: Op): Db {
    match Apply(db, op)
    case Ok(next) => next
    case Err(_) => db
  }

  /** The tables after any sequence of calls, in any interleaving of the callers. */
  ghost function Run(db: Db, ops: seq<Op>): Db {
    if ops == [] then db else After(Run(db, ops[..|ops| - 1]), ops[|ops| - 1])
  }
}
