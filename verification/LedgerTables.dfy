/**
 The tables of the attempt ledger and what the database itself enforces on every
 insert: row checks, keys, and the trigger guards of schema versions 1, 2 and 3.
 */
module LedgerTables {
  import opened Wrappers
  import opened Plans

  /** A SHA-256 digest; only equality of digests is ever used. */
  datatype Digest = Digest(key: int)

  datatype State =
    | Planned | Reserved | InFlight | ResultSaved | Completed
    | Failed | Limited | Uncertain | Unavailable | Blocked

  datatype Code =
    | AdapterFailed | AdapterLimited | InvalidAdapterOutput
    | InputUnavailable | InputUnknown | InputInvalid | InputInapplicable | DependencyUnresolved
    | Interrupted

  predicate IsFailureCode(c: Code) {
    c == AdapterFailed || c == AdapterLimited || c == InvalidAdapterOutput
  }

  predicate IsSkipCode(c: Code) {
    c == InputUnavailable || c == InputUnknown || c == InputInvalid || c == InputInapplicable
      || c == DependencyUnresolved
  }

  datatype Event = Event(
    id: nat, work: Id, state: State,
    attempt: Option<Id>, request: Option<Digest>, result: Option<Digest>, code: Option<Code>)

  datatype Attempt = Attempt(work: Id, request: Digest)

  datatype Reconciliation = Reconciliation(receipt: Digest, result: Digest)

  datatype Retry = Retry(uncertainEvent: nat, receipt: Digest, evidence: Digest)

  /** `events` is in ascending event id; the other tables are keyed by attempt id. */
  datatype Db = Db(
    version: nat, plan: seq<Row>, attempts: map<Id, Attempt>, events: seq<Event>,
    reconciliations: map<Id, Reconciliation>, retries: map<Id, Retry>)

  /** The transition table; a state without an entry is terminal. */
  function Moves(s: State): set<State> {
    match s
    case Planned => {Reserved, Unavailable, Blocked}
    case Reserved => {InFlight}
    case InFlight => {ResultSaved, Failed, Limited, Uncertain}
    case ResultSaved => {Completed}
    case Uncertain => {ResultSaved, Reserved}
    case _ => {}
  }

  predicate Terminal(s: State) {
    s == Completed || s == Failed || s == Limited || s == Unavailable || s == Blocked
  }

  // ----- the current_states view ---------------------------------------------------

  /** Index of the latest event of `w` among the first `n` events. */
  function Last(events: seq<Event>, n: nat, w: Id): (r: Option<nat>)
    requires n <= |events|
    ensures r.Some? ==> r.value < n && events[r.value].work == w
  {
    if n == 0 then None
    else if events[n - 1].work == w then Some(n - 1)
    else Last(events, n - 1, w)
  }

  /** The state row of `w` after the first `n` events. */
  function StateAt(events: seq<Event>, n: nat, w: Id): (r: Option<Event>)
    requires n <= |events|
    ensures r.Some? ==> r.value.work == w && r.value in events[..n]
  {
    match Last(events, n, w)
    case None => None
    case Some(i) => assert events[..n][i] == events[i]; Some(events[i])
  }

  function Current(db: Db, w: Id): Option<Event> {
    StateAt(db.events, |db.events|, w)
  }

  /** The state row of an item; a blank one for an item without. */
  function RowOf(db: Db, w: Id): Event {
    match Current(db, w)
    case None => Event(0, w, Planned, None, None, None, None)
    case Some(c) => c
  }

  /** The attempt a state row names, if it names one. */
  function AttemptOn(db: Db, w: Id): Id {
    match RowOf(db, w).attempt
    case None => Id(0)
    case Some(a) => a
  }

  /** The item of an attempt. */
  function WorkOf(db: Db, a: Id): Id {
    if a in db.attempts then db.attempts[a].work else Id(0)
  }

  /** The request of an attempt. */
  function RequestOf(db: Db, a: Id): Digest {
    if a in db.attempts then db.attempts[a].request else Digest(0)
  }

  predicate InState(db: Db, w: Id, s: State) {
    Current(db, w).Some? && Current(db, w).value.state == s
  }

  /** The result digest in an item's state row. */
  function ResultDigest(db: Db, w: Id): Digest {
    match Current(db, w)
    case None => Digest(0)
    case Some(c) => if c.result.Some? then c.result.value else Digest(0)
  }

  /** The view's row carrying a given attempt, searched in plan order. */
  function RowOfAttempt(db: Db, rows: seq<Row>, a: Id): Option<Event> {
    if rows == [] then None
    else
      var c := Current(db, rows[0].work);
      if c.Some? && c.value.attempt == Some(a) then c else RowOfAttempt(db, rows[1..], a)
  }

  predicate DepsCompleted(db: Db, w: Id) {
    forall d | d in DepsOf(db.plan, w) :: InState(db, d, Completed)
  }

  lemma {:induction false} LastPrefix(events: seq<Event>, more: seq<Event>, n: nat, w: Id)
    requires n <= |events|
    ensures Last(events + more, n, w) == Last(events, n, w)
    ensures StateAt(events + more, n, w) == StateAt(events, n, w)
  {
    if n > 0 {
      LastPrefix(events, more, n - 1, w);
    }
  }

  /** Appending an event changes the state of its own item and of no other. */
  lemma CurrentAfterAppend(events: seq<Event>, e: Event, w: Id)
    ensures StateAt(events + [e], |events| + 1, w) == if w == e.work then Some(e) else StateAt(events, |events|, w)
  {
    LastPrefix(events, [e], |events|, w);
    assert (events + [e])[|events|] == e;
  }

  // ----- constraints the database checks on each insert -------------------------------

  /** The CHECK constraint of the events table. */
  predicate EventRowOk(e: Event) {
    match e.state
    case Planned => e.attempt.None? && e.request.None? && e.result.None? && e.code.None?
    case Unavailable => e.attempt.None? && e.request.None? && e.result.None? && e.code.Some? && IsSkipCode(e.code.value)
    case Blocked => e.attempt.None? && e.request.None? && e.result.None? && e.code.Some? && IsSkipCode(e.code.value)
    case Reserved => e.attempt.Some? && e.request.Some? && e.result.None? && e.code.None?
    case InFlight => e.attempt.Some? && e.request.Some? && e.result.None? && e.code.None?
    case ResultSaved => e.attempt.Some? && e.request.Some? && e.result.Some? && e.code.None?
    case Completed => e.attempt.Some? && e.request.Some? && e.result.Some? && e.code.None?
    case Failed => e.attempt.Some? && e.request.Some? && e.result.None? && e.code.Some? && IsFailureCode(e.code.value)
    case Limited => e.attempt.Some? && e.request.Some? && e.result.None? && e.code.Some? && IsFailureCode(e.code.value)
    case Uncertain => e.attempt.Some? && e.request.Some? && e.result.None? && e.code == Some(Interrupted)
  }

  predicate WorkHasAttempt(db: Db, w: Id) {
    exists a | a in db.attempts :: db.attempts[a].work == w
  }

  /** The trigger on attempts. */
  predicate AttemptGuard(db: Db, a: Id, row: Attempt) {
    && a !in db.attempts
    && !WorkHasAttempt(db, row.work)
    && InState(db, row.work, Planned)
    && DepsCompleted(db, row.work)
  }

  /** The guard's clause for an item that keeps its attempt, by schema version. */
  predicate AttemptMoveGuard(db: Db, c: Event, e: Event)
    requires c.attempt.Some?
  {
    || (c.state == Reserved && e.state == InFlight)
    || (c.state == InFlight && e.state in {ResultSaved, Failed, Limited, Uncertain})
    || (db.version >= 2 && c.state == Uncertain && e.state == ResultSaved
        && c.attempt.value in db.reconciliations && Some(db.reconciliations[c.attempt.value].result) == e.result)
    || (db.version >= 3 && c.state == Uncertain && e.state == Reserved
        && c.attempt.value in db.retries && db.retries[c.attempt.value].uncertainEvent == c.id)
    || (c.state == ResultSaved && e.state == Completed && c.result == e.result)
  }

  /** The trigger on events; version 2 and version 3 each add one clause to version 1. */
  predicate EventGuard(db: Db, e: Event) {
    match Current(db, e.work)
    case None => false
    case Some(c) =>
      || (c.state == Planned && (e.state == Unavailable || e.state == Blocked) && !WorkHasAttempt(db, e.work))
      || (c.state == Planned && e.state == Reserved
          && e.attempt.Some? && e.request.Some? && e.attempt.value in db.attempts
          && db.attempts[e.attempt.value] == Attempt(e.work, e.request.value)
          && DepsCompleted(db, e.work))
      || (c.attempt.Some? && c.attempt == e.attempt && c.request.Some? && c.request == e.request
          && AttemptMoveGuard(db, c, e))
  }

  predicate ReconciliationGuard(db: Db, a: Id) {
    && a !in db.reconciliations
    && var c := RowOfAttempt(db, db.plan, a); c.Some? && c.value.state == Uncertain
  }

  predicate RetryGuard(db: Db, a: Id, row: Retry) {
    && a !in db.retries
    && (forall b | b in db.retries :: db.retries[b].uncertainEvent != row.uncertainEvent)
    && var c := RowOfAttempt(db, db.plan, a); c.Some? && c.value.state == Uncertain && c.value.id == row.uncertainEvent
  }

  /** AUTOINCREMENT. */
  function NextId(events: seq<Event>): nat {
    if events == [] then 1 else events[|events| - 1].id + 1
  }

  predicate ForeignKeys(db: Db, e: Event) {
    e.work in Works(db.plan) && (e.attempt.Some? ==> e.attempt.value in db.attempts)
  }

  /** Insert one event, or nothing when a constraint or the guard aborts. */
  function InsertEvent(db: Db, work: Id, state: State, attempt: Option<Id>, request: Option<Digest>,
                       result: Option<Digest>, code: Option<Code>): Option<Db>
  {
    var e := Event(NextId(db.events), work, state, attempt, request, result, code);
    if EventRowOk(e) && ForeignKeys(db, e) && EventGuard(db, e) then Some(db.(events := db.events + [e])) else None
  }

  function InsertAttempt(db: Db, a: Id, row: Attempt): Option<Db> {
    if AttemptGuard(db, a, row) && row.work in Works(db.plan)
    then Some(db.(attempts := db.attempts[a := row])) else None
  }

  function InsertReconciliation(db: Db, a: Id, row: Reconciliation): Option<Db> {
    if ReconciliationGuard(db, a) && a in db.attempts
    then Some(db.(reconciliations := db.reconciliations[a := row])) else None
  }

  function InsertRetry(db: Db, a: Id, row: Retry): Option<Db> {
    if RetryGuard(db, a, row) && a in db.attempts
      && (exists i | 0 <= i < |db.events| :: db.events[i].id == row.uncertainEvent)
    then Some(db.(retries := db.retries[a := row])) else None
  }
}
