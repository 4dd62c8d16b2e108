/**
 The history verifier: one pass over the events that re-checks every rule of the
 ledger from the stored rows alone, and accepts or reports corruption.
 */
module LedgerAudit {
  import opened Wrappers
  import opened Plans
  import opened LedgerTables

  /** What the pass remembers. */
  datatype Audit = Audit(
    latest: map<Id, Event>, reserved: set<Id>, recovered: set<Id>, retried: set<Id>, count: nat)

  const START := Audit(map[], {}, {}, {}, 0)

  function RecoveryRows(db: Db): map<Id, Reconciliation> {
    if db.version >= 2 then db.reconciliations else map[]
  }

  function RetryRows(db: Db): map<Id, Retry> {
    if db.version == 3 then db.retries else map[]
  }

  function Previous(st: Audit, w: Id): Option<Event> {
    if w in st.latest then Some(st.latest[w]) else None
  }

  predicate IsRetryMove(prev: Option<Event>, e: Event) {
    prev.Some? && prev.value.state == Uncertain && e.state == Reserved
  }

  predicate IsReceiptMove(prev: Option<Event>, e: Event) {
    prev.Some? && prev.value.state == Uncertain && e.state != Reserved
  }

  /** The event continues the item's path. */
  predicate MoveOk(prev: Option<Event>, e: Event) {
    match prev
    case None => e.state == Planned
    case Some(p) => e.state in Moves(p.state)
  }

  /** Leaving `uncertain` needs its own evidence row. */
  predicate EvidenceOk(db: Db, prev: Option<Event>, e: Event) {
    && (IsRetryMove(prev, e) ==>
          && e.attempt.Some? && e.attempt.value in RetryRows(db)
          && RetryRows(db)[e.attempt.value].uncertainEvent == prev.value.id)
    && (IsReceiptMove(prev, e) ==>
          && e.attempt.Some? && e.attempt.value in RecoveryRows(db)
          && Some(RecoveryRows(db)[e.attempt.value].result) == e.result)
  }

  /** An event with an attempt names the one attempt of its item and that attempt's request. */
  predicate AttemptOk(db: Db, e: Event) {
    e.attempt.Some? ==>
      && e.attempt.value in db.attempts
      && db.attempts[e.attempt.value].work == e.work
      && e.request == Some(db.attempts[e.attempt.value].request)
  }

  predicate DepsDone(latest: map<Id, Event>, deps: seq<Id>) {
    forall d | d in deps :: d in latest && latest[d].state == Completed
  }

  predicate ReservationOk(db: Db, st: Audit, prev: Option<Event>, e: Event) {
    e.state == Reserved ==>
      && (e.work in st.reserved ==> IsRetryMove(prev, e))
      && DepsDone(st.latest, DepsOf(db.plan, e.work))
  }

  predicate CompletionOk(prev: Option<Event>, e: Event) {
    e.state == Completed ==> prev.Some? && e.result == prev.value.result
  }

  predicate WithinBound(db: Db, count: nat) {
    count <= 6 * |db.plan| + 3 * |RetryRows(db)|
  }

  predicate StepOk(db: Db, st: Audit, e: Event) {
    var prev := Previous(st, e.work);
    && WithinBound(db, st.count + 1)
    && e.work in Works(db.plan)
    && MoveOk(prev, e)
    && EvidenceOk(db, prev, e)
    && AttemptOk(db, e)
    && ReservationOk(db, st, prev, e)
    && CompletionOk(prev, e)
  }

  function StepTo(st: Audit, e: Event): Audit {
    var prev := Previous(st, e.work);
    Audit(
      st.latest[e.work := e],
      if e.state == Reserved then st.reserved + {e.work} else st.reserved,
      if IsReceiptMove(prev, e) && e.attempt.Some? then st.recovered + {e.attempt.value} else st.recovered,
      if IsRetryMove(prev, e) && e.attempt.Some? then st.retried + {e.attempt.value} else st.retried,
      st.count + 1)
  }

  /** The pass over the first `n` events; `None` reports corruption. */
  function AuditTo(db: Db, n: nat): Option<Audit>
    requires n <= |db.events|
  {
    if n == 0 then Some(START)
    else
      match AuditTo(db, n - 1)
      case None => None
      case Some(st) => if StepOk(db, st, db.events[n - 1]) then Some(StepTo(st, db.events[n - 1])) else None
  }

  function AttemptWorks(db: Db): set<Id> {
    set a | a in db.attempts :: db.attempts[a].work
  }

  predicate OneAttemptPerWork(db: Db) {
    forall a, b | a in db.attempts && b in db.attempts && a != b :: db.attempts[a].work != db.attempts[b].work
  }

  predicate AttemptsOk(db: Db) {
    AttemptWorks(db) <= Works(db.plan) && OneAttemptPerWork(db)
  }

  /** The closing comparison of what was seen with what the tables hold. */
  predicate Balanced(db: Db, st: Audit) {
    && st.retried == RetryRows(db).Keys
    && st.recovered == RecoveryRows(db).Keys
    && st.latest.Keys == Works(db.plan)
    && AttemptWorks(db) == st.reserved
  }

  /** The verifier's verdict on a stored history. */
  ghost predicate Accepts(db: Db) {
    && 1 <= db.version <= 3
    && ValidPlan(db.plan)
    && AttemptsOk(db)
    && AuditTo(db, |db.events|).Some?
    && Balanced(db, AuditTo(db, |db.events|).value)
  }

  /** First loop: every attempt belongs to a planned item, and no item has two. */
  method CheckAttempts(db: Db) returns (ok: bool)
    ensures ok <==> AttemptsOk(db)
  {
    var rest := db.attempts.Keys;
    var seen: set<Id> := {};
    while rest != {}
      invariant rest <= db.attempts.Keys
      invariant seen == set a | a in db.attempts && a !in rest :: db.attempts[a].work
      invariant seen <= Works(db.plan)
      invariant forall a, b | a in db.attempts && b in db.attempts && a !in rest && b !in rest && a != b ::
          db.attempts[a].work != db.attempts[b].work
      decreases |rest|
    {
      var a :| a in rest;
      var w := db.attempts[a].work;
      if w !in Works(db.plan) || w in seen {
        assert w in AttemptWorks(db);
        return false;
      }
      seen := seen + {w};
      rest := rest - {a};
    }
    assert seen == AttemptWorks(db);
    ok := true;
  }

  /** The whole verification of a stored ledger. */
  method VerifyHistory(db: Db) returns (ok: bool)
    ensures ok <==> Accepts(db)
  {
    if !(1 <= db.version <= 3) {
      return false;
    }
    var planOk := ValidatePlan(db.plan);
    if !planOk {
      return false;
    }
    var attemptsOk := CheckAttempts(db);
    if !attemptsOk {
      return false;
    }
    var st := AuditEvents(db);
    ok := st.Some? && Balanced(db, st.value);
  }

  /** The event loop. */
  method AuditEvents(db: Db) returns (r: Option<Audit>)
    ensures r == AuditTo(db, |db.events|)
  {
    hide StepOk, StepTo;
    var st := START;
    for i := 0 to |db.events|
      invariant AuditTo(db, i) == Some(st)
    {
      if !StepOk(db, st, db.events[i]) {
        RejectionSticks(db, i + 1, |db.events|);
        return None;
      }
      st := StepTo(st, db.events[i]);
    }
    r := Some(st);
  }

  lemma {:induction false} RejectionSticks(db: Db, i: nat, n: nat)
    requires i <= n <= |db.events| && AuditTo(db, i).None?
    ensures AuditTo(db, n).None?
  {
    hide StepOk, StepTo;
    if i < n {
      RejectionSticks(db, i, n - 1);
    }
  }
}
