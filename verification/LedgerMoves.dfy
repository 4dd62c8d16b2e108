/** What each operation of the ledger, once it has succeeded, did to the state rows of the items. */
module LedgerMoves {
  import opened Wrappers
  import opened Plans
  import opened LedgerTables
  import opened LedgerOps
  import opened LedgerSoundness
  import opened LedgerRuns

  /** `later` is `db` after one event for an item; the attempts are the same and every other state row is. */
  ghost predicate Moved(db: Db, later: Db, e: Event) {
    && Healthy(later) && later.plan == db.plan && later.attempts == db.attempts
    && (forall w :: Current(later, w) == if w == e.work then Some(e) else Current(db, w))
  }

  lemma PlusMoves(db: Db, tables: Db, e: Event)
    requires tables.plan == db.plan && tables.attempts == db.attempts && tables.events == db.events
      && Healthy(Plus(tables, e))
    ensures Moved(db, Plus(tables, e), e)
  {
    hide Sane;
    forall w ensures Current(Plus(tables, e), w) == if w == e.work then Some(e) else Current(db, w) {
      CurrentAfterAppend(db.events, e, w);
    }
  }

  lemma TransitionMoves(db: Db, a: Id, source: State, target: State, result: Option<Digest>, code: Option<Code>)
    requires Healthy(db) && PlainMove(source, target, result, code)
    requires Transition(db, a, source, target, result, code).Ok?
    ensures a in db.attempts && InState(db, WorkOf(db, a), source)
    ensures var later, e := Transition(db, a, source, target, result, code).value, MoveRow(db, a, target, result, code);
      && Moved(db, later, e) && later.retries == db.retries && later.reconciliations == db.reconciliations
      && e.work == WorkOf(db, a) && e.state == target
  {
    hide Sane, Transition;
    TransitionAgrees(db, a, source, target, result, code);
    HealthyAttempt(db, a);
    PlusMoves(db, db, MoveRow(db, a, target, result, code));
  }

  /** Two attempts never share an item. */
  lemma SameWork(db: Db, a: Id, b: Id)
    requires Healthy(db) && a in db.attempts && b in db.attempts && WorkOf(db, a) == WorkOf(db, b)
    ensures a == b
  {
    HealthySays(db);
    HealthyAttempt(db, a);
    HealthyAttempt(db, b);
  }

  lemma NoneInFlightAfter(db: Db, later: Db, e: Event)
    requires Moved(db, later, e) && e.state != InFlight && forall w :: InState(db, w, InFlight) ==> w == e.work
    ensures forall w :: !InState(later, w, InFlight)
  {
    hide Sane;
    forall w ensures !InState(later, w, InFlight) {
      assert InState(db, w, InFlight) ==> w == e.work;
    }
  }

  lemma SkipMoves(db: Db, w: Id, state: State, code: Code)
    requires Healthy(db) && Skip(db, w, state, code).Ok?
    ensures InState(db, w, Planned) && (state == Unavailable || state == Blocked)
    ensures var later := Skip(db, w, state, code).value;
      var e := Event(NextId(db.events), w, state, None, None, None, Some(code));
      Moved(db, later, e) && later.retries == db.retries && later.reconciliations == db.reconciliations
  {
    SkipAgrees(db, w, state, code);
    hide Sane, Skip;
    PlusMoves(db, db, Event(NextId(db.events), w, state, None, None, None, Some(code)));
  }

  /** A reservation that succeeded, read through the ledger's contract. */
  lemma ReserveMoves(db: Db, w: Id, request: Digest, a: Id, admit: nat -> bool)
    requires Healthy(db) && LedgerOps.Reserve(db, w, request, a, admit).Ok?
    ensures var later, e := LedgerOps.Reserve(db, w, request, a, admit).value, ReservedRow(db, w, request, a);
      && Healthy(later) && later.plan == db.plan && later.retries == db.retries
      && later.reconciliations == db.reconciliations && later.attempts == db.attempts[a := Attempt(w, request)]
      && a !in db.attempts
      && (forall v :: Current(later, v) == if v == w then Some(e) else Current(db, v))
    ensures InState(db, w, Planned) && DepsCompleted(db, w)
    ensures forall b | b in db.attempts :: WorkOf(db, b) != w
  {
    ReserveAgrees(db, w, request, a, admit);
    hide Sane, LedgerOps.Reserve, DepsCompleted;
    HealthyPlanned(db, w);
    forall v
      ensures Current(ReservedDb(db, w, request, a), v) ==
        if v == w then Some(ReservedRow(db, w, request, a)) else Current(db, v)
    {
      CurrentAfterAppend(db.events, ReservedRow(db, w, request, a), v);
    }
  }

  lemma RetriesAreAttempts(db: Db, a: Id)
    requires Healthy(db) && a in db.retries
    ensures a in db.attempts
  {
    HealthySays(db);
    RowsNeedVersions(db);
    var i := RetriedSet(db, |db.events|, a);
    StepAt(db, i, |db.events|);
  }

  lemma RetryMoves(db: Db, a: Id, receipt: Digest, evidence: Digest)
    requires Healthy(db) && AuthorizeRetry(db, a, receipt, evidence).Ok?
    ensures a in db.attempts && InState(db, WorkOf(db, a), Uncertain) && a !in db.retries
    ensures var later, e := AuthorizeRetry(db, a, receipt, evidence).value, RetryRow(db, a);
      && Moved(db, later, e) && later.retries.Keys == db.retries.Keys + {a}
      && later.reconciliations == db.reconciliations && e.work == WorkOf(db, a) && e.state == Reserved
  {
    hide Sane, AuthorizeRetry, Current, InState;
    RetryAgrees(db, a, receipt, evidence);
    PlusMoves(db, RetryTables(db, a, receipt, evidence), RetryRow(db, a));
  }

  lemma ReconcileMoves(db: Db, a: Id, result: Digest, receipt: Digest)
    requires Healthy(db) && ReconcileResult(db, a, result, receipt).Ok?
    ensures a in db.attempts
    ensures a in db.reconciliations ==> ReconcileResult(db, a, result, receipt).value == db
    ensures a !in db.reconciliations ==>
      var later, e := ReconcileResult(db, a, result, receipt).value, ReconcileRow(db, a, result);
      && InState(db, e.work, Uncertain) && e.work == WorkOf(db, a) && e.state == ResultSaved
      && e.result == Some(result)
      && Moved(db, later, e) && later.retries == db.retries
      && later.reconciliations.Keys == db.reconciliations.Keys + {a}
  {
    hide Sane, ReconcileResult, Current, InState;
    ReconcileAgrees(db, a, result, receipt);
    if a !in db.reconciliations {
      PlusMoves(db, ReconcileTables(db, a, result, receipt), ReconcileRow(db, a, result));
    }
  }
}
