/**
 The three statements of the ledger's rules agree: whatever passes an operation's
 own checks passes the triggers, whatever the triggers admit is a move of the
 transition table that the verifier accepts, and every history the operations can
 produce, through any schema upgrade, is accepted.
 */
module LedgerRuns {
  import opened Wrappers
  import opened Plans
  import opened LedgerTables
  import opened LedgerAudit
  import opened LedgerOps
  import opened LedgerSoundness
  import Sorting

  /** A database every insert so far passed the verifier's step checks. */
  ghost predicate Auditable(db: Db) {
    && RowsValid(db.events)
    && 1 <= db.version <= 3
    && ValidPlan(db.plan)
    && AttemptsOk(db)
    && Audited(db, |db.events|)
    && (db.version < 2 ==> db.reconciliations == map[])
    && (db.version < 3 ==> db.retries == map[])
  }

  /** What health consists of. */
  datatype Facet = OfTables | OfBalance

  ghost predicate Sane(f: Facet, db: Db) {
    match f
    case OfTables => Auditable(db)
    case OfBalance => Balanced(db, Pass(db, |db.events|))
  }

  ghost predicate Healthy(db: Db) {
    forall f: Facet :: Sane(f, db)
  }

  lemma HealthySays(db: Db)
    requires Healthy(db)
    ensures Auditable(db) && Balanced(db, Pass(db, |db.events|))
  {
    assert Sane(OfTables, db) && Sane(OfBalance, db);
  }

  ghost function Now(db: Db): Audit {
    Pass(db, |db.events|)
  }

  lemma HealthyAccepted(db: Db)
    requires Healthy(db)
    ensures Accepts(db)
  {
    HealthySays(db);
  }

  // ----- more rows in the evidence tables never hurt ------------------------------------

  ghost predicate SubMap<K, V>(m: map<K, V>, n: map<K, V>) {
    forall k | k in m :: k in n && n[k] == m[k]
  }

  /** `later` has the same plan and at least the rows of `db`. */
  ghost predicate Grows(db: Db, later: Db) {
    && later.plan == db.plan
    && db.events <= later.events
    && SubMap(db.attempts, later.attempts)
    && SubMap(RecoveryRows(db), RecoveryRows(later))
    && SubMap(RetryRows(db), RetryRows(later))
  }

  lemma StepStaysOk(db: Db, later: Db, st: Audit, e: Event)
    requires Grows(db, later) && StepOk(db, st, e)
    ensures StepOk(later, st, e)
  {
    SubsetSize(RetryRows(db).Keys, RetryRows(later).Keys);
  }

  lemma {:induction false} PassStaysSame(db: Db, later: Db, n: nat)
    requires Grows(db, later) && Audited(db, n)
    ensures Audited(later, n) && Pass(later, n) == Pass(db, n)
  {
    if n > 0 {
      PassStep(db, n);
      PassStaysSame(db, later, n - 1);
      assert later.events[n - 1] == db.events[n - 1];
      StepStaysOk(db, later, Pass(db, n - 1), db.events[n - 1]);
    }
  }

  // ----- what the triggers admit ----------------------------------------------------------

  lemma CurrentIsLatest(db: Db, w: Id)
    requires Auditable(db)
    ensures Previous(Now(db), w) == Current(db, w)
  {
    LatestIsState(db, |db.events|);
  }

  /** Whatever the trigger of any schema version admits is a move of the transition table. */
  lemma GuardAdmitsOnlyMoves(db: Db, e: Event)
    requires EventGuard(db, e)
    ensures Current(db, e.work).Some? && e.state in Moves(Current(db, e.work).value.state)
    ensures !Terminal(Current(db, e.work).value.state)
    ensures Current(db, e.work).value.state == Uncertain ==>
        if e.state == Reserved then db.version >= 3 else db.version >= 2
  {
  }

  /** A state row's attempt columns are those of the attempts table. */
  lemma CurrentAttempt(db: Db, w: Id)
    requires Auditable(db) && Current(db, w).Some?
    ensures var c := Current(db, w).value;
      EventRowOk(c) && c.work in Works(db.plan) && AttemptOk(db, c)
        && (exists i :: 0 <= i < |db.events| && db.events[i] == c)
  {
    var i := Last(db.events, |db.events|, w).value;
    StepAt(db, i, |db.events|);
  }

  lemma ReservedBefore(db: Db, n: nat, w: Id)
    requires Audited(db, n) && w in Pass(db, n).reserved
    ensures 0 < n <= |db.events| && Audited(db, n - 1)
    ensures w in Pass(db, n - 1).reserved || (db.events[n - 1].work == w && db.events[n - 1].state == Reserved)
    ensures db.events[n - 1].work == w ==>
      MoveOk(StateAt(db.events, n - 1, w), db.events[n - 1])
  {
    hide StateAt, EvidenceOk, AttemptOk, ReservationOk, CompletionOk, WithinBound;
    StepAt(db, n - 1, n);
  }

  lemma {:induction false} ReservedIsBeyond(db: Db, n: nat, w: Id)
    requires Audited(db, n) && w in Pass(db, n).reserved
    ensures StateAt(db.events, n, w).Some? && BeyondReservation(StateAt(db.events, n, w).value.state)
  {
    hide StateAt, StepOk, Pass, Audited;
    ReservedBefore(db, n, w);
    StateStep(db.events, n, w);
    if w in Pass(db, n - 1).reserved {
      ReservedIsBeyond(db, n - 1, w);
    }
  }

  lemma AuditableFollowsMoves(db: Db)
    requires Auditable(db)
    ensures FollowsMoves(db.events)
  {
    forall i: nat | i < |db.events| ensures MoveAt(db.events, i) {
      StepAt(db, i, |db.events|);
    }
  }

  /** An item past its reservation still has all its dependencies completed. */
  lemma DepsStayDone(db: Db, w: Id)
    requires Auditable(db) && Current(db, w).Some? && BeyondReservation(Current(db, w).value.state)
    ensures DepsDone(Now(db).latest, DepsOf(db.plan, w))
  {
    var n := |db.events|;
    AuditableFollowsMoves(db);
    var r := WasReserved(db.events, n, w);
    StepAt(db, r, n);
    forall d | d in DepsOf(db.plan, w) ensures d in Now(db).latest && Now(db).latest[d].state == Completed {
      LatestIsState(db, r);
      assert Previous(Pass(db, r), d) == StateAt(db.events, r, d);
      TerminalStays(db.events, r, n, d);
      CurrentIsLatest(db, d);
    }
  }

  lemma ReservationAdmitted(db: Db, e: Event)
    requires Auditable(db) && EventGuard(db, e) && e.state == Reserved
    ensures ReservationOk(db, Now(db), Previous(Now(db), e.work), e)
  {
    CurrentIsLatest(db, e.work);
    if Current(db, e.work).value.state == Planned {
      if e.work in Now(db).reserved {
        ReservedIsBeyond(db, |db.events|, e.work);
      }
      forall d | d in DepsOf(db.plan, e.work) ensures d in Now(db).latest && Now(db).latest[d].state == Completed {
        CurrentIsLatest(db, d);
      }
    } else {
      DepsStayDone(db, e.work);
    }
  }

  /** Whatever the trigger of any schema version admits, the verifier accepts as the next event. */
  lemma GuardAdmitsOnlyAccepted(db: Db, e: Event)
    requires Auditable(db) && EventGuard(db, e) && EventRowOk(e) && ForeignKeys(db, e)
    ensures StepOk(db, Now(db), e)
  {
    CurrentIsLatest(db, e.work);
    CurrentAttempt(db, e.work);
    GuardAdmitsOnlyMoves(db, e);
    if e.state == Reserved {
      ReservationAdmitted(db, e);
    }
    CountBoundIsImplied(db, |db.events|, e);
  }

  lemma RowsStayValid(events: seq<Event>, e: Event)
    requires RowsValid(events) && EventRowOk(e) && e.id == NextId(events)
    ensures RowsValid(events + [e])
  {
  }

  lemma PassOverOneMore(db: Db, e: Event)
    requires Audited(db, |db.events|) && StepOk(db, Pass(db, |db.events|), e)
    ensures var db' := db.(events := db.events + [e]);
      Audited(db', |db'.events|) && Pass(db', |db'.events|) == StepTo(Pass(db, |db.events|), e)
  {
    var db' := db.(events := db.events + [e]);
    var n := |db.events|;
    assert db'.events[n] == e;
    PassStaysSame(db, db', n);
    StepStaysOk(db, db', Pass(db, n), e);
  }

  /** The database after one more event. */
  function Plus(db: Db, e: Event): Db {
    db.(events := db.events + [e])
  }

  predicate Admitted(db: Db, e: Event) {
    EventGuard(db, e) && EventRowOk(e) && ForeignKeys(db, e) && e.id == NextId(db.events)
  }

  /** Any raw insert of an event the database lets through keeps the history auditable. */
  lemma InsertKeepsAuditable(db: Db, e: Event)
    requires Auditable(db) && Admitted(db, e)
    ensures Auditable(Plus(db, e)) && Now(Plus(db, e)) == StepTo(Now(db), e)
  {
    GuardAdmitsOnlyAccepted(db, e);
    RowsStayValid(db.events, e);
    PassOverOneMore(db, e);
  }

  /** More rows in the other tables keep it auditable too. */
  lemma RowsKeepAuditable(db: Db, later: Db)
    requires Auditable(db) && Grows(db, later) && later.events == db.events && AttemptsOk(later)
    requires 1 <= later.version <= 3
    requires (later.version < 2 ==> later.reconciliations == map[]) && (later.version < 3 ==> later.retries == map[])
    ensures Auditable(later) && Now(later) == Now(db)
  {
    PassStaysSame(db, later, |db.events|);
  }

  // ----- every operation keeps the database healthy -------------------------------------------

  /** A healthy item past planning carries its one attempt. */
  lemma HealthyAttempt(db: Db, a: Id)
    requires Healthy(db) && a in db.attempts
    ensures var w := db.attempts[a].work;
      && w in Works(db.plan)
      && Current(db, w).Some? && BeyondReservation(Current(db, w).value.state)
      && Current(db, w).value.attempt == Some(a) && Current(db, w).value.request == Some(db.attempts[a].request)
  {
    HealthySays(db);
    var w := db.attempts[a].work;
    assert w in AttemptWorks(db);
    ReservedIsBeyond(db, |db.events|, w);
    CurrentAttempt(db, w);
  }

  lemma HealthyWork(db: Db, w: Id)
    requires Healthy(db)
    ensures Current(db, w).Some? <==> w in Works(db.plan)
  {
    HealthySays(db);
    CurrentIsLatest(db, w);
  }

  lemma HealthyPlanned(db: Db, w: Id)
    requires Healthy(db) && InState(db, w, Planned)
    ensures !WorkHasAttempt(db, w)
  {
    HealthySays(db);
    if WorkHasAttempt(db, w) {
      var a :| a in db.attempts && db.attempts[a].work == w;
      HealthyAttempt(db, a);
    }
  }

  /** An admitted event that is neither a reservation nor an exit from `uncertain`. */
  lemma PlainInsertKeepsHealthy(db: Db, e: Event)
    requires Healthy(db) && Admitted(db, e)
    requires e.state != Reserved && !InState(db, e.work, Uncertain)
    ensures Healthy(Plus(db, e))
  {
    hide Auditable, EventGuard, EventRowOk, Balanced;
    HealthySays(db);
    InsertKeepsAuditable(db, e);
    CurrentIsLatest(db, e.work);
    HealthyWork(db, e.work);
    PlainBalances(db, Now(db), e);
  }

  lemma PlainBalances(db: Db, st: Audit, e: Event)
    requires Balanced(db, st) && e.work in Works(db.plan) && e.state != Reserved
    requires Previous(st, e.work).Some? ==> Previous(st, e.work).value.state != Uncertain
    ensures Balanced(Plus(db, e), StepTo(st, e))
  {
    assert st.latest.Keys + {e.work} == st.latest.Keys;
  }

  /** The moves an attempt makes outside operator recovery. */
  predicate PlainMove(source: State, target: State, result: Option<Digest>, code: Option<Code>) {
    || (source == Reserved && target == InFlight && result.None? && code.None?)
    || (source == InFlight && target == ResultSaved && result.Some? && code.None?)
    || (source == InFlight && (target == Failed || target == Limited) && result.None? && code.Some?
      && IsFailureCode(code.value))
    || (source == InFlight && target == Uncertain && result.None? && code == Some(Interrupted))
    || (source == ResultSaved && target == Completed && result.None? && code.None?)
  }

  function MoveRow(db: Db, a: Id, target: State, result: Option<Digest>, code: Option<Code>): Event {
    var c := RowOf(db, WorkOf(db, a));
    Event(NextId(db.events), c.work, target, Some(a), c.request, if target == Completed then c.result else result, code)
  }

  /** A transition that passes its checks is admitted by the triggers and keeps the database healthy. */
  lemma TransitionAgrees(db: Db, a: Id, source: State, target: State, result: Option<Digest>, code: Option<Code>)
    requires Healthy(db) && PlainMove(source, target, result, code)
    ensures var r := Transition(db, a, source, target, result, code);
      && (r.Ok? <==> a in db.attempts && InState(db, db.attempts[a].work, source))
      && (r.Err? ==> r.error == if a in db.attempts then InvalidTransition else UnknownAttempt)
      && (r.Ok? ==>
            Current(db, db.attempts[a].work).Some? && r.value == Plus(db, MoveRow(db, a, target, result, code))
            && Healthy(r.value))
  {
    hide Auditable, Balanced;
    HealthySays(db);
    if a in db.attempts {
      HealthyAttempt(db, a);
      var c := Current(db, db.attempts[a].work).value;
      CurrentAttempt(db, db.attempts[a].work);
      if c.state == source {
        var e := MoveRow(db, a, target, result, code);
        assert AttemptMoveGuard(db, c, e);
        PlainInsertKeepsHealthy(db, e);
      }
    }
  }

  lemma SkipAgrees(db: Db, w: Id, state: State, code: Code)
    requires Healthy(db)
    ensures var r := Skip(db, w, state, code);
      && (r.Ok? <==> (state == Unavailable || state == Blocked) && IsSkipCode(code) && InState(db, w, Planned))
      && r != Err(GuardAborted)
      && (r.Ok? ==>
            r.value == Plus(db, Event(NextId(db.events), w, state, None, None, None, Some(code))) && Healthy(r.value))
  {
    hide Auditable, Balanced;
    HealthySays(db);
    if (state == Unavailable || state == Blocked) && IsSkipCode(code) && InState(db, w, Planned) {
      HealthyPlanned(db, w);
      HealthyWork(db, w);
      PlainInsertKeepsHealthy(db, Event(NextId(db.events), w, state, None, None, None, Some(code)));
    }
  }

  // ----- reservation

  lemma UnresolvedAgrees(db: Db, w: Id)
    requires Healthy(db)
    ensures Unresolved(db, w) <==> !DepsCompleted(db, w)
  {
    HealthySays(db);
    forall d | d in DepsOf(db.plan, w) ensures Current(db, d).Some? {
      if w !in Works(db.plan) {
        DepsOfOutside(db.plan, w);
      } else {
        DepsOfRow(db.plan, RowIndex(db.plan, w));
      }
      HealthyWork(db, d);
    }
  }

  lemma NewAttemptIsOk(db: Db, a: Id, row: Attempt)
    requires AttemptsOk(db) && AttemptGuard(db, a, row) && row.work in Works(db.plan)
    ensures AttemptsOk(db.(attempts := db.attempts[a := row]))
    ensures AttemptWorks(db.(attempts := db.attempts[a := row])) == AttemptWorks(db) + {row.work}
  {
    var later := db.(attempts := db.attempts[a := row]);
    forall w | w in AttemptWorks(db) ensures w in AttemptWorks(later) {
      var b :| b in db.attempts && db.attempts[b].work == w;
      assert later.attempts[b].work == w;
    }
    assert later.attempts[a].work == row.work;
    assert AttemptWorks(later) <= AttemptWorks(db) + {row.work};
  }

  function ReservedRow(db: Db, w: Id, request: Digest, a: Id): Event {
    Event(NextId(db.events), w, Reserved, Some(a), Some(request), None, None)
  }

  function WithAttempt(db: Db, a: Id, w: Id, request: Digest): Db {
    db.(attempts := db.attempts[a := Attempt(w, request)])
  }

  lemma AttemptRowFits(db: Db, w: Id, request: Digest, a: Id)
    requires Healthy(db) && InState(db, w, Planned) && DepsCompleted(db, w) && a !in db.attempts
    ensures w in Works(db.plan) && AttemptGuard(db, a, Attempt(w, request))
    ensures var db1 := WithAttempt(db, a, w, request);
      && Auditable(db1) && Now(db1) == Now(db) && AttemptWorks(db1) == AttemptWorks(db) + {w}
  {
    HealthySays(db);
    HealthyPlanned(db, w);
    HealthyWork(db, w);
    NewAttemptIsOk(db, a, Attempt(w, request));
    RowsKeepAuditable(db, WithAttempt(db, a, w, request));
  }

  lemma ReservationFits(db: Db, w: Id, request: Digest, a: Id)
    requires InState(db, w, Planned) && DepsCompleted(db, w) && w in Works(db.plan)
    ensures Admitted(WithAttempt(db, a, w, request), ReservedRow(db, w, request, a))
  {
    var db1 := WithAttempt(db, a, w, request);
    forall d | d in DepsOf(db.plan, w) ensures InState(db1, d, Completed) {
      assert InState(db, d, Completed);
    }
  }

  lemma ReserveInserts(db: Db, w: Id, request: Digest, a: Id)
    requires Healthy(db) && InState(db, w, Planned) && DepsCompleted(db, w) && a !in db.attempts
    ensures w in Works(db.plan) && AttemptGuard(db, a, Attempt(w, request))
    ensures var db1 := WithAttempt(db, a, w, request); var e := ReservedRow(db, w, request, a);
      Admitted(db1, e) && Healthy(Plus(db1, e))
  {
    HealthySays(db);
    var db1, e := WithAttempt(db, a, w, request), ReservedRow(db, w, request, a);
    AttemptRowFits(db, w, request, a);
    ReservationFits(db, w, request, a);
    InsertKeepsAuditable(db1, e);
    CurrentIsLatest(db, w);
    ReservedBalances(db, db1, e);
  }

  lemma ReservedBalances(db: Db, db1: Db, e: Event)
    requires Healthy(db) && e.state == Reserved && Previous(Now(db), e.work).Some?
    requires Previous(Now(db), e.work).value.state == Planned
    requires db1.plan == db.plan && AttemptWorks(db1) == AttemptWorks(db) + {e.work}
    requires RetryRows(db1) == RetryRows(db) && RecoveryRows(db1) == RecoveryRows(db)
    ensures Balanced(Plus(db1, e), StepTo(Now(db), e))
  {
    HealthySays(db);
    assert Now(db).latest.Keys + {e.work} == Now(db).latest.Keys;
    assert AttemptWorks(Plus(db1, e)) == AttemptWorks(db1);
  }

  function ReservedDb(db: Db, w: Id, request: Digest, a: Id): Db {
    Plus(WithAttempt(db, a, w, request), ReservedRow(db, w, request, a))
  }

  lemma ReserveComputes(db: Db, w: Id, request: Digest, a: Id)
    requires AttemptGuard(db, a, Attempt(w, request)) && w in Works(db.plan)
    requires Admitted(WithAttempt(db, a, w, request), ReservedRow(db, w, request, a))
    ensures InsertAttempt(db, a, Attempt(w, request)) == Some(WithAttempt(db, a, w, request))
    ensures InsertEvent(WithAttempt(db, a, w, request), w, Reserved, Some(a), Some(request), None, None)
        == Some(ReservedDb(db, w, request, a))
  {
    hide AttemptGuard, EventGuard, ForeignKeys, EventRowOk;
  }

  /** A reservation that passes its checks under an unused attempt id is admitted by the triggers. */
  lemma ReserveAgrees(db: Db, w: Id, request: Digest, a: Id, admit: nat -> bool)
    requires Healthy(db)
    ensures var r := Reserve(db, w, request, a, admit);
      && (r.Ok? <==> InState(db, w, Planned) && DepsCompleted(db, w) && admit(|db.attempts| + 1) && a !in db.attempts)
      && (r == Err(GuardAborted) <==>
            InState(db, w, Planned) && DepsCompleted(db, w) && admit(|db.attempts| + 1) && a in db.attempts)
      && (r.Ok? ==> r.value == ReservedDb(db, w, request, a) && Healthy(r.value))
      && r != Err(Corrupt)
  {
    hide Sane, InsertEvent, DepsCompleted, Unresolved, EventGuard, WithAttempt, Current;
    UnresolvedAgrees(db, w);
    if InState(db, w, Planned) && DepsCompleted(db, w) && a !in db.attempts {
      ReserveInserts(db, w, request, a);
      ReserveComputes(db, w, request, a);
      assert ReservedDb(db, w, request, a) == Plus(WithAttempt(db, a, w, request), ReservedRow(db, w, request, a));
    }
  }

  // ----- recovery of interrupted attempts

  function UncertainRow(db: Db, w: Id): Event {
    Event(NextId(db.events), w, Uncertain, RowOf(db, w).attempt, RowOf(db, w).request, None, Some(Interrupted))
  }

  lemma MarkOne(db: Db, w: Id)
    requires Healthy(db) && InState(db, w, InFlight)
    ensures InsertEvent(db, w, Uncertain, Current(db, w).value.attempt, Current(db, w).value.request, None,
                        Some(Interrupted))
        == Some(Plus(db, UncertainRow(db, w)))
    ensures Healthy(Plus(db, UncertainRow(db, w)))
  {
    HealthySays(db);
    CurrentAttempt(db, w);
    assert AttemptMoveGuard(db, Current(db, w).value, UncertainRow(db, w));
    PlainInsertKeepsHealthy(db, UncertainRow(db, w));
  }

  /** Only the event log grew. */
  predicate SameTables(db: Db, later: Db) {
    && later.version == db.version && later.plan == db.plan && later.attempts == db.attempts
    && later.reconciliations == db.reconciliations && later.retries == db.retries
    && db.events <= later.events
  }

  /** The item went from in flight to uncertain and kept its attempt. */
  predicate MarkedUncertain(db: Db, later: Db, w: Id) {
    && InState(db, w, InFlight) && InState(later, w, Uncertain)
    && Current(later, w).value.attempt == Current(db, w).value.attempt
    && Current(later, w).value.request == Current(db, w).value.request
    && Current(later, w).value.code == Some(Interrupted)
  }

  /** Exactly the listed items were marked. */
  ghost predicate Marked(db: Db, later: Db, works: seq<Id>) {
    forall w :: if w in works then MarkedUncertain(db, later, w) else Current(later, w) == Current(db, w)
  }

  lemma {:induction false} MarkUncertainAgrees(db: Db, works: seq<Id>)
    requires Healthy(db) && Distinct(works) && forall w | w in works :: InState(db, w, InFlight)
    ensures var r := MarkUncertain(db, works);
      && r.Ok? && Healthy(r.value) && SameTables(db, r.value) && |r.value.events| == |db.events| + |works|
      && Marked(db, r.value, works)
    decreases |works|
  {
    hide Sane, EventGuard;
    if works != [] {
      assert works[0] in works;
      MarkOne(db, works[0]);
      var db1 := Plus(db, UncertainRow(db, works[0]));
      RestInFlight(db, works);
      MarkUncertainAgrees(db1, works[1..]);
      MarkedAfterAll(db, db1, MarkUncertain(db1, works[1..]).value, works);
    }
  }

  lemma RestInFlight(db: Db, works: seq<Id>)
    requires works != [] && Distinct(works) && forall w | w in works :: InState(db, w, InFlight)
    ensures works[0] in works && InState(db, works[0], InFlight)
    ensures Distinct(works[1..])
    ensures forall w | w in works[1..] :: InState(Plus(db, UncertainRow(db, works[0])), w, InFlight)
  {
    assert works[0] in works;
    forall w | w in works[1..] ensures InState(Plus(db, UncertainRow(db, works[0])), w, InFlight) {
      CurrentAfterAppend(db.events, UncertainRow(db, works[0]), w);
      assert w in works;
    }
  }

  lemma MarkedAfterAll(db: Db, db1: Db, later: Db, works: seq<Id>)
    requires works != [] && Distinct(works) && InState(db, works[0], InFlight)
    requires db1 == Plus(db, UncertainRow(db, works[0])) && Marked(db1, later, works[1..])
    ensures Marked(db, later, works)
  {
    forall w ensures if w in works then MarkedUncertain(db, later, w) else Current(later, w) == Current(db, w) {
      CurrentAfterAppend(db.events, UncertainRow(db, works[0]), w);
      MarkedAfterOne(db, db1, later, works, w);
    }
  }

  lemma MarkedAfterOne(db: Db, db1: Db, later: Db, works: seq<Id>, w: Id)
    requires works != [] && Distinct(works) && InState(db, works[0], InFlight)
    requires Current(db1, w) == if w == works[0] then Some(UncertainRow(db, works[0])) else Current(db, w)
    requires if w in works[1..] then MarkedUncertain(db1, later, w) else Current(later, w) == Current(db1, w)
    ensures if w in works then MarkedUncertain(db, later, w) else Current(later, w) == Current(db, w)
  {
    assert works == [works[0]] + works[1..];
  }

  lemma {:induction false} InFlightListed(db: Db, rows: seq<Row>)
    requires UniqueWorks(rows)
    ensures Distinct(InFlightIn(db, rows))
    ensures forall w :: w in InFlightIn(db, rows) <==> w in Works(rows) && InState(db, w, InFlight)
  {
    if rows != [] {
      var front, last := rows[..|rows| - 1], rows[|rows| - 1];
      InFlightListed(db, front);
      WorksSnoc(front, last);
      assert rows == front + [last];
      assert last.work !in Works(front);
    }
  }

  /** Recovery turns every in-flight item uncertain, leaves every other item alone, and cannot fail. */
  lemma RecoverAgrees(db: Db)
    requires Healthy(db)
    ensures var r := Recover(db);
      && r.Ok? && Healthy(r.value) && SameTables(db, r.value)
      && (forall w ::
            if InState(db, w, InFlight) then MarkedUncertain(db, r.value, w)
            else Current(r.value, w) == Current(db, w))
      && ((forall w :: !InState(db, w, InFlight)) ==> r.value == db)
  {
    HealthySays(db);
    var listed := InFlightIn(db, db.plan);
    var after := (x: Id, y: Id) => x.key > y.key;
    InFlightListed(db, db.plan);
    Sorting.SortDistinct(listed, after);
    forall w ensures w in InFlightWorks(db) <==> InState(db, w, InFlight) {
      Sorting.SortMembers(listed, after, w);
      HealthyWork(db, w);
    }
    MarkUncertainAgrees(db, InFlightWorks(db));
    assert InFlightWorks(db) != [] ==> InFlightWorks(db)[0] in InFlightWorks(db);
  }

  // ----- operator recovery

  /** The item of attempt `a` is at present in a row carrying that attempt. */
  predicate CarriesAttempt(db: Db, a: Id) {
    && a in db.attempts && Current(db, db.attempts[a].work).Some?
    && Current(db, db.attempts[a].work).value.attempt == Some(a)
  }

  lemma {:induction false} RowOfAttemptIs(db: Db, rows: seq<Row>, a: Id)
    requires Auditable(db)
    ensures var r := RowOfAttempt(db, rows, a);
      && (r.Some? ==> CarriesAttempt(db, a) && r == Current(db, db.attempts[a].work))
      && (CarriesAttempt(db, a) && db.attempts[a].work in Works(rows) ==> r.Some?)
  {
    if rows != [] {
      var c := Current(db, rows[0].work);
      if c.Some? {
        CurrentAttempt(db, rows[0].work);
      }
      RowOfAttemptIs(db, rows[1..], a);
      if a in db.attempts && db.attempts[a].work in Works(rows) {
        var i :| 0 <= i < |rows| && rows[i].work == db.attempts[a].work;
        if i > 0 {
          assert rows[1..][i - 1] == rows[i];
        }
      }
    }
  }

  /** In a healthy ledger an attempt is always found, in its item's present row. */
  lemma AttemptRow(db: Db, a: Id)
    requires Healthy(db)
    ensures var r := RowOfAttempt(db, db.plan, a);
      && (r.Some? <==> a in db.attempts)
      && (r.Some? ==>
            CarriesAttempt(db, a) && r == Current(db, db.attempts[a].work)
            && r.value.request == Some(db.attempts[a].request))
  {
    HealthySays(db);
    RowOfAttemptIs(db, db.plan, a);
    if a in db.attempts {
      HealthyAttempt(db, a);
    }
  }

  /** The id of the row an attempt's item is in; zero when there is none. */
  function RowId(db: Db, a: Id): nat {
    if a in db.attempts && Current(db, db.attempts[a].work).Some? then Current(db, db.attempts[a].work).value.id else 0
  }

  function RetryTables(db: Db, a: Id, receipt: Digest, evidence: Digest): Db {
    Upgraded(db, 3).(retries := db.retries[a := Retry(RowId(db, a), receipt, evidence)])
  }

  function RetriedDb(db: Db, a: Id, receipt: Digest, evidence: Digest): Db {
    Plus(RetryTables(db, a, receipt, evidence), RetryRow(db, a))
  }

  function RetryRow(db: Db, a: Id): Event {
    Event(NextId(db.events), WorkOf(db, a), Reserved, Some(a), Some(RequestOf(db, a)), None, None)
  }

  lemma UpgradeGrows(db: Db, version: nat)
    requires Auditable(db) && version <= 3
    ensures Grows(db, Upgraded(db, version)) && Auditable(Upgraded(db, version))
      && Now(Upgraded(db, version)) == Now(db)
    ensures forall w :: Current(Upgraded(db, version), w) == Current(db, w)
    ensures RetryRows(Upgraded(db, version)) == RetryRows(db) && RecoveryRows(Upgraded(db, version)) == RecoveryRows(db)
  {
    RowsKeepAuditable(db, Upgraded(db, version));
  }

  /** No two retry rows name the same uncertain event: the event still is its item's present row. */
  lemma RetryIsUnused(db: Db, a: Id)
    requires Healthy(db) && a in db.attempts && a !in db.retries && InState(db, db.attempts[a].work, Uncertain)
    ensures forall b | b in db.retries :: db.retries[b].uncertainEvent != Current(db, db.attempts[a].work).value.id
  {
    HealthySays(db);
    var n := |db.events|;
    forall b | b in db.retries
      ensures db.retries[b].uncertainEvent != Current(db, db.attempts[a].work).value.id
    {
      assert b in Pass(db, n).retried;
      var i := RetriedSet(db, n, b);
      StepAt(db, i, n);
      var x, y := Last(db.events, i, db.events[i].work).value, Last(db.events, n, db.attempts[a].work).value;
      LastAtLeast(db.events, i, n);
    }
  }

  lemma RetryRowFits(db: Db, a: Id, receipt: Digest, evidence: Digest)
    requires Healthy(db) && a in db.attempts && a !in db.retries && InState(db, db.attempts[a].work, Uncertain)
    ensures InsertRetry(Upgraded(db, 3), a, Retry(RowId(db, a), receipt, evidence)) ==
      Some(RetryTables(db, a, receipt, evidence))
    ensures var db1 := RetryTables(db, a, receipt, evidence); Auditable(db1) && Now(db1) == Now(db)
  {
    HealthySays(db);
    var up := Upgraded(db, 3);
    UpgradeGrows(db, 3);
    AttemptRow(db, a);
    RowOfAttemptIs(up, up.plan, a);
    CurrentAttempt(db, db.attempts[a].work);
    HealthyAttempt(db, a);
    RetryIsUnused(db, a);
    RowsKeepAuditable(up, RetryTables(db, a, receipt, evidence));
  }

  lemma RetryBalances(db: Db, db1: Db, e: Event, a: Id)
    requires Healthy(db) && e.state == Reserved && e.attempt == Some(a) && IsRetryMove(Previous(Now(db), e.work), e)
    requires db1.plan == db.plan && db1.attempts == db.attempts && a in db.attempts && db.attempts[a].work == e.work
    requires RetryRows(db1).Keys == RetryRows(db).Keys + {a} && RecoveryRows(db1) == RecoveryRows(db)
    ensures Balanced(Plus(db1, e), StepTo(Now(db), e))
  {
    HealthySays(db);
    assert Now(db).latest.Keys + {e.work} == Now(db).latest.Keys;
    assert e.work in AttemptWorks(db);
    assert AttemptWorks(Plus(db1, e)) == AttemptWorks(db);
    assert Now(db).reserved + {e.work} == Now(db).reserved;
  }

  /** A retry that passes its checks writes both of its rows. */
  lemma RetryWrites(db: Db, a: Id, receipt: Digest, evidence: Digest)
    requires Healthy(db) && a in db.attempts && InState(db, db.attempts[a].work, Uncertain) && a !in db.retries
    ensures var c := Current(db, db.attempts[a].work).value;
      && c.id == RowId(db, a)
      && InsertRetry(Upgraded(db, 3), a, Retry(c.id, receipt, evidence)) == Some(RetryTables(db, a, receipt, evidence))
      && InsertEvent(RetryTables(db, a, receipt, evidence), c.work, Reserved, Some(a), c.request, None, None)
        == Some(RetriedDb(db, a, receipt, evidence))
    ensures Healthy(RetriedDb(db, a, receipt, evidence)) && Accepts(RetriedDb(db, a, receipt, evidence))
  {
    hide Auditable, Balanced, EventGuard, RetryGuard, ForeignKeys, EventRowOk;
    HealthySays(db);
    RetryRowFits(db, a, receipt, evidence);
    RetryInserts(db, a, receipt, evidence);
    RetryAdmitted(db, a, receipt, evidence);
    AttemptRow(db, a);
    HealthyAccepted(RetriedDb(db, a, receipt, evidence));
  }

  lemma RowsNeedVersions(db: Db)
    requires Healthy(db)
    ensures 1 <= db.version <= 3
    ensures db.retries != map[] ==> db.version >= 3
    ensures db.reconciliations != map[] ==> db.version >= 2
  {
    hide AttemptsOk, ValidPlan, Audited, Balanced, RowsValid;
    HealthySays(db);
  }

  /** The retry is granted exactly to an uncertain attempt that has not had one; the verifier then still accepts. */
  lemma RetryAgrees(db: Db, a: Id, receipt: Digest, evidence: Digest)
    requires Healthy(db)
    ensures var r := AuthorizeRetry(db, a, receipt, evidence);
      && (r.Ok? <==> a in db.attempts && InState(db, db.attempts[a].work, Uncertain) && a !in db.retries)
      && (r.Err? ==>
            r.error == if a in db.attempts && InState(db, db.attempts[a].work, Uncertain) then RetryAlreadyUsed
                       else InvalidTransition)
      && (r.Ok? ==> r.value == RetriedDb(db, a, receipt, evidence) && Healthy(r.value))
  {
    hide Sane, InsertRetry, InsertEvent, Accepts, RowOfAttempt, Upgraded, RetriedDb, RetryTables;
    AttemptRow(db, a);
    RowsNeedVersions(db);
    if a in db.attempts && InState(db, db.attempts[a].work, Uncertain) && a !in db.retries {
      RetryWrites(db, a, receipt, evidence);
    }
  }

  lemma RetryInserts(db: Db, a: Id, receipt: Digest, evidence: Digest)
    requires Healthy(db) && a in db.attempts && a !in db.retries && InState(db, db.attempts[a].work, Uncertain)
    requires var db1 := RetryTables(db, a, receipt, evidence); Auditable(db1) && Now(db1) == Now(db)
    ensures var db1 := RetryTables(db, a, receipt, evidence);
      Admitted(db1, RetryRow(db, a)) && Healthy(Plus(db1, RetryRow(db, a)))
  {
    hide Auditable, Admitted;
    HealthySays(db);
    var db1, e := RetryTables(db, a, receipt, evidence), RetryRow(db, a);
    RetryAdmitted(db, a, receipt, evidence);
    RetryKeys(db, a, receipt, evidence);
    InsertKeepsAuditable(db1, e);
    CurrentIsLatest(db, e.work);
    RetryBalances(db, db1, e, a);
  }

  lemma RetryKeys(db: Db, a: Id, receipt: Digest, evidence: Digest)
    requires Healthy(db)
    ensures RetryRows(RetryTables(db, a, receipt, evidence)).Keys == RetryRows(db).Keys + {a}
    ensures RecoveryRows(RetryTables(db, a, receipt, evidence)) == RecoveryRows(db)
  {
    hide Sane;
    RowsNeedVersions(db);
  }

  lemma RetryAdmitted(db: Db, a: Id, receipt: Digest, evidence: Digest)
    requires Healthy(db) && a in db.attempts && a !in db.retries && InState(db, db.attempts[a].work, Uncertain)
    ensures Admitted(RetryTables(db, a, receipt, evidence), RetryRow(db, a))
  {
    hide Auditable, Balanced;
    HealthySays(db);
    var db1, e := RetryTables(db, a, receipt, evidence), RetryRow(db, a);
    HealthyAttempt(db, a);
    assert Current(db1, e.work) == Current(db, e.work);
    assert AttemptMoveGuard(db1, Current(db1, e.work).value, e);
  }

  function ReconcileTables(db: Db, a: Id, result: Digest, receipt: Digest): Db {
    Upgraded(db, 2).(reconciliations := db.reconciliations[a := Reconciliation(receipt, result)])
  }

  function ReconcileRow(db: Db, a: Id, result: Digest): Event {
    Event(NextId(db.events), WorkOf(db, a), ResultSaved, Some(a), Some(RequestOf(db, a)), Some(result), None)
  }

  lemma ReconciledInPass(db: Db, a: Id)
    requires Healthy(db) && a in db.reconciliations
    ensures Auditable(db) && a in Pass(db, |db.events|).recovered
  {
    HealthySays(db);
    RowsNeedVersions(db);
    hide Auditable;
  }

  /** An uncertain attempt was not reconciled before: a reconciled item never gets back to uncertain. */
  lemma ReconcileIsUnused(db: Db, a: Id)
    requires Healthy(db) && a in db.attempts && InState(db, db.attempts[a].work, Uncertain)
    ensures a !in db.reconciliations
  {
    hide Sane, AuditTo, ReservationOk, CompletionOk;
    var n := |db.events|;
    if a in db.reconciliations {
      ReconciledInPass(db, a);
      var i := RecoveredSet(db, n, a);
      StepAt(db, i, n);
      AuditableFollowsMoves(db);
      StateStep(db.events, i + 1, db.events[i].work);
      SavedStaysSaved(db.events, i + 1, n, db.events[i].work);
    }
  }

  lemma ReconcileRowFits(db: Db, a: Id, result: Digest, receipt: Digest)
    requires Healthy(db) && a in db.attempts && InState(db, db.attempts[a].work, Uncertain)
    ensures InsertReconciliation(Upgraded(db, 2), a, Reconciliation(receipt, result)) ==
      Some(ReconcileTables(db, a, result, receipt))
    ensures var db1 := ReconcileTables(db, a, result, receipt); Auditable(db1) && Now(db1) == Now(db)
  {
    HealthySays(db);
    var up := Upgraded(db, 2);
    UpgradeGrows(db, 2);
    ReconcileIsUnused(db, a);
    AttemptRow(db, a);
    RowOfAttemptIs(up, up.plan, a);
    HealthyAttempt(db, a);
    RowsKeepAuditable(up, ReconcileTables(db, a, result, receipt));
  }

  lemma ReconcileBalances(db: Db, db1: Db, e: Event, a: Id)
    requires Healthy(db) && e.state == ResultSaved && e.attempt == Some(a)
      && IsReceiptMove(Previous(Now(db), e.work), e)
    requires db1.plan == db.plan && db1.attempts == db.attempts
    requires RecoveryRows(db1).Keys == RecoveryRows(db).Keys + {a} && RetryRows(db1) == RetryRows(db)
    ensures Balanced(Plus(db1, e), StepTo(Now(db), e))
  {
    HealthySays(db);
    assert Now(db).latest.Keys + {e.work} == Now(db).latest.Keys;
    assert AttemptWorks(Plus(db1, e)) == AttemptWorks(db);
  }

  lemma ReconcileKeys(db: Db, a: Id, result: Digest, receipt: Digest)
    requires Healthy(db)
    ensures var db1 := ReconcileTables(db, a, result, receipt);
      RecoveryRows(db1).Keys == RecoveryRows(db).Keys + {a} && RetryRows(db1) == RetryRows(db)
  {
    hide Sane;
    RowsNeedVersions(db);
  }

  lemma ReconcileInserts(db: Db, a: Id, result: Digest, receipt: Digest)
    requires Healthy(db) && a in db.attempts && InState(db, db.attempts[a].work, Uncertain)
    requires var db1 := ReconcileTables(db, a, result, receipt); Auditable(db1) && Now(db1) == Now(db)
    ensures var db1 := ReconcileTables(db, a, result, receipt);
      Admitted(db1, ReconcileRow(db, a, result)) && Healthy(Plus(db1, ReconcileRow(db, a, result)))
  {
    hide Auditable, Admitted, Balanced;
    HealthySays(db);
    var db1, e := ReconcileTables(db, a, result, receipt), ReconcileRow(db, a, result);
    ReconcileAdmitted(db, a, result, receipt);
    ReconcileKeys(db, a, result, receipt);
    InsertKeepsAuditable(db1, e);
    CurrentIsLatest(db, e.work);
    ReconcileBalances(db, db1, e, a);
  }

  lemma ReconcileAdmitted(db: Db, a: Id, result: Digest, receipt: Digest)
    requires Healthy(db) && a in db.attempts && InState(db, db.attempts[a].work, Uncertain)
    ensures Admitted(ReconcileTables(db, a, result, receipt), ReconcileRow(db, a, result))
  {
    HealthySays(db);
    var db1, e := ReconcileTables(db, a, result, receipt), ReconcileRow(db, a, result);
    HealthyAttempt(db, a);
    assert Current(db1, e.work) == Current(db, e.work);
    assert AttemptMoveGuard(db1, Current(db1, e.work).value, e);
  }

  function ReconciledDb(db: Db, a: Id, result: Digest, receipt: Digest): Db {
    Plus(ReconcileTables(db, a, result, receipt), ReconcileRow(db, a, result))
  }

  /** A reconciliation that passes its checks writes both of its rows. */
  lemma ReconcileWrites(db: Db, a: Id, result: Digest, receipt: Digest)
    requires Healthy(db) && a in db.attempts && InState(db, db.attempts[a].work, Uncertain)
    ensures a !in db.reconciliations
    ensures var c := Current(db, db.attempts[a].work).value;
      && InsertReconciliation(Upgraded(db, 2), a, Reconciliation(receipt, result)) ==
         Some(ReconcileTables(db, a, result, receipt))
      && InsertEvent(ReconcileTables(db, a, result, receipt), c.work, ResultSaved, Some(a), c.request, Some(result),
                     None)
        == Some(ReconciledDb(db, a, result, receipt))
    ensures Healthy(ReconciledDb(db, a, result, receipt)) && Accepts(ReconciledDb(db, a, result, receipt))
  {
    hide Auditable, Balanced, EventGuard, ReconciliationGuard, ForeignKeys, EventRowOk;
    HealthySays(db);
    ReconcileIsUnused(db, a);
    ReconcileRowFits(db, a, result, receipt);
    ReconcileInserts(db, a, result, receipt);
    ReconcileAdmitted(db, a, result, receipt);
    AttemptRow(db, a);
    HealthyAccepted(ReconciledDb(db, a, result, receipt));
  }

  /** Reconciliation succeeds for an uncertain attempt, or as an identical repetition; the verifier then still
      accepts. */
  lemma ReconcileAgrees(db: Db, a: Id, result: Digest, receipt: Digest)
    requires Healthy(db)
    ensures var r := ReconcileResult(db, a, result, receipt);
      var repeated := a in db.attempts && a in db.reconciliations;
      && (r.Ok? <==> a in db.attempts && if repeated then db.reconciliations[a] == Reconciliation(receipt, result)
                                         else InState(db, db.attempts[a].work, Uncertain))
      && (r.Err? ==> r.error == if repeated then ReconciliationMismatch else InvalidTransition)
      && (r.Ok? ==> r.value == if repeated then db else ReconciledDb(db, a, result, receipt))
      && (r.Ok? ==> Healthy(r.value))
  {
    hide Sane, InsertReconciliation, InsertEvent, Accepts, RowOfAttempt, Upgraded, ReconciledDb, ReconcileTables;
    AttemptRow(db, a);
    RowsNeedVersions(db);
    if a in db.attempts && a !in db.reconciliations && InState(db, db.attempts[a].work, Uncertain) {
      ReconcileWrites(db, a, result, receipt);
    }
  }

  // ----- raw inserts ---------------------------------------------------------------------------

  /** On a healthy ledger the trigger never admits a reservation by itself: the operations write its row of evidence
      first. */
  lemma NoBareReservation(db: Db, e: Event)
    requires Healthy(db) && Admitted(db, e)
    ensures e.state != Reserved
  {
    HealthySays(db);
    if e.state == Reserved {
      if InState(db, e.work, Planned) {
        HealthyPlanned(db, e.work);
      } else {
        RowsNeedVersions(db);
        CurrentAttempt(db, e.work);
        RetryIsPast(db, |db.events|, e.attempt.value);
      }
    }
  }

  /** Nor an exit from `uncertain`. */
  lemma NoBareExit(db: Db, e: Event)
    requires Healthy(db) && Admitted(db, e)
    ensures !InState(db, e.work, Uncertain)
  {
    HealthySays(db);
    NoBareReservation(db, e);
    if InState(db, e.work, Uncertain) {
      CurrentAttempt(db, e.work);
      ReconcileIsUnused(db, e.attempt.value);
    }
  }

  /** Any raw insert of an event that the database lets through keeps the history accepted. */
  lemma InsertKeepsAccepted(db: Db, e: Event)
    requires Healthy(db) && Admitted(db, e)
    ensures Healthy(Plus(db, e)) && Accepts(Plus(db, e))
  {
    hide Sane, Admitted;
    NoBareReservation(db, e);
    NoBareExit(db, e);
    PlainInsertKeepsHealthy(db, e);
    HealthyAccepted(Plus(db, e));
  }

  // ----- whole runs ------------------------------------------------------------------------------

  /** An item's first event may only be its planned row. */
  lemma FirstEventOk(db: Db, st: Audit, e: Event)
    requires e.work in Works(db.plan) && e.work !in st.latest && e.state == Planned && e.attempt.None?
    requires st.count < 6 * |db.plan|
    ensures StepOk(db, st, e)
    ensures var st' := StepTo(st, e);
      && st'.latest.Keys == st.latest.Keys + {e.work} && st'.count == st.count + 1
      && st'.reserved == st.reserved && st'.recovered == st.recovered && st'.retried == st.retried
  {
  }

  lemma {:induction false} CreatedPass(plan: seq<Row>, n: nat)
    requires ValidPlan(plan) && n <= |plan|
    ensures var db := Created(plan);
      && Audited(db, n) && Pass(db, n).latest.Keys == Works(plan[..n]) && Pass(db, n).count == n
      && Pass(db, n).reserved == {} && Pass(db, n).recovered == {} && Pass(db, n).retried == {}
  {
    hide StepOk, StepTo, Acyclic, KnownDeps;
    if n > 0 {
      CreatedPass(plan, n - 1);
      var e := Created(plan).events[n - 1];
      assert plan[..n] == plan[..n - 1] + [plan[n - 1]];
      WorksSnoc(plan[..n - 1], plan[n - 1]);
      assert e.work !in Works(plan[..n - 1]);
      FirstEventOk(Created(plan), Pass(Created(plan), n - 1), e);
    }
  }

  lemma CreatedHealthy(plan: seq<Row>)
    requires ValidPlan(plan)
    ensures Healthy(Created(plan))
  {
    CreatedPass(plan, |plan|);
    assert plan[..|plan|] == plan;
  }

  /** One call, successful or not, keeps the database healthy. */
  lemma ApplyKeepsHealthy(db: Db, op: Op)
    requires Healthy(db)
    ensures Healthy(After(db, op))
    ensures Apply(db, op) != Err(Corrupt)
    ensures Apply(db, op) == Err(GuardAborted) ==> op.OpReserve? && op.uuid in db.attempts
  {
    hide Sane, Transition, Reserve, Recover, AuthorizeRetry, ReconcileResult;
    match op {
      case OpReserve(w, request, uuid, admit) => ReserveAgrees(db, w, request, uuid, admit);
      case OpStart(a) => TransitionAgrees(db, a, Reserved, InFlight, None, None);
      case OpRecord(a, result) => TransitionAgrees(db, a, InFlight, ResultSaved, Some(result), None);
      case OpComplete(a) => TransitionAgrees(db, a, ResultSaved, Completed, None, None);
      case OpFail(a, code, limited) =>
        if IsFailureCode(code) {
          TransitionAgrees(db, a, InFlight, if limited then Limited else Failed, None, Some(code));
        }
      case OpSkip(w, state, code) => SkipAgrees(db, w, state, code);
      case OpRecover => RecoverAgrees(db);
      case OpRetry(a, receipt, evidence) => RetryAgrees(db, a, receipt, evidence);
      case OpReconcile(a, result, receipt) => ReconcileAgrees(db, a, result, receipt);
    }
  }

  /** Verifier completeness: whatever calls are made, in any order, the stored history is accepted. */
  lemma {:induction false} EveryRunIsAccepted(plan: seq<Row>, ops: seq<Op>)
    requires ValidPlan(plan)
    ensures Healthy(Run(Created(plan), ops)) && Accepts(Run(Created(plan), ops))
  {
    if ops == [] {
      CreatedHealthy(plan);
    } else {
      EveryRunIsAccepted(plan, ops[..|ops| - 1]);
      ApplyKeepsHealthy(Run(Created(plan), ops[..|ops| - 1]), ops[|ops| - 1]);
    }
    HealthyAccepted(Run(Created(plan), ops));
  }

  lemma EventsOnlyGrow(db: Db, op: Op)
    requires Healthy(db)
    ensures db.events <= After(db, op).events && After(db, op).plan == db.plan
  {
    hide Sane, Transition, Reserve, Recover, AuthorizeRetry, ReconcileResult;
    match op {
      case OpReserve(w, request, uuid, admit) => ReserveAgrees(db, w, request, uuid, admit);
      case OpStart(a) => TransitionAgrees(db, a, Reserved, InFlight, None, None);
      case OpRecord(a, result) => TransitionAgrees(db, a, InFlight, ResultSaved, Some(result), None);
      case OpComplete(a) => TransitionAgrees(db, a, ResultSaved, Completed, None, None);
      case OpFail(a, code, limited) =>
        if IsFailureCode(code) {
          TransitionAgrees(db, a, InFlight, if limited then Limited else Failed, None, Some(code));
        }
      case OpSkip(w, state, code) => SkipAgrees(db, w, state, code);
      case OpRecover => RecoverAgrees(db);
      case OpRetry(a, receipt, evidence) => RetryAgrees(db, a, receipt, evidence);
      case OpReconcile(a, result, receipt) => ReconcileAgrees(db, a, result, receipt);
    }
  }

  /** Completed, failed, limited, unavailable and blocked are final under every later sequence of calls. */
  lemma {:induction false} TerminalForever(db: Db, ops: seq<Op>, w: Id)
    requires Healthy(db) && Current(db, w).Some? && Terminal(Current(db, w).value.state)
    ensures Healthy(Run(db, ops)) && Current(Run(db, ops), w) == Current(db, w)
  {
    hide Sane, Apply;
    if ops != [] {
      var before, op := Run(db, ops[..|ops| - 1]), ops[|ops| - 1];
      TerminalForever(db, ops[..|ops| - 1], w);
      ApplyKeepsHealthy(before, op);
      EventsOnlyGrow(before, op);
      var later := After(before, op);
      HealthySays(later);
      AuditableFollowsMoves(later);
      var n := |before.events|;
      assert later.events == before.events + later.events[n..];
      LastPrefix(before.events, later.events[n..], n, w);
      TerminalStays(later.events, n, |later.events|, w);
    }
  }

  /** In every reachable ledger an attempt is dispatched at most once, or twice when it holds the one retry row. */
  lemma DispatchBound(db: Db, a: Id)
    requires Healthy(db) && a in db.attempts
    ensures Count(db.events, |db.events|, db.attempts[a].work, InFlight)
        == 1 + One(a in db.retries) - StateIs(db.events, |db.events|, db.attempts[a].work, Reserved)
  {
    HealthySays(db);
    HealthyAccepted(db);
    AcceptedDispatchBound(db, a);
  }
}
