/**
 Histories at the limits of the rules: two that the verifier accepts and no operations
 produce, and one that they do produce, with a blocked item whose dependency is completed.
 */
module LedgerLimits {
  import opened Wrappers
  import opened Plans
  import opened LedgerTables
  import opened LedgerAudit
  import opened LedgerSoundness
  import opened LedgerOps
  import opened LedgerRuns
  import opened LedgerMoves
  import opened LedgerProduced

  const A: Id := Id(0)
  const B: Id := Id(1)

  /** Attempts of the two items. */
  const X: Id := Id(2)
  const Y: Id := Id(3)

  const REQUEST: Digest := Digest(0)
  const RESULT: Digest := Digest(1)

  /** Two independent items. */
  const APART: seq<Row> := [Row(A, A, Writer, []), Row(B, B, Writer, [])]

  /** The second item depends on the first. */
  const PAIR: seq<Row> := [Row(A, A, Writer, []), Row(B, A, Reviewer, [A])]

  function Planning(id: nat, w: Id): Event {
    Event(id, w, Planned, None, None, None, None)
  }

  lemma TwoItemsAreValid(plan: seq<Row>)
    requires plan == APART || plan == PAIR
    ensures ValidPlan(plan) && Works(plan) == {A, B}
    ensures DepsOf(plan, A) == [] && DepsOf(plan, B) == plan[1].deps
  {
    assert plan[0].work == A && plan[1].work == B;
    var order := [A, B];
    DepsOfRow(plan, 0);
    DepsOfRow(plan, 1);
    assert order[..1] == [A];
    forall w | w in Works(plan) ensures w in Members(order) {
      assert order[0] == A && order[1] == B;
    }
    forall i: nat | i < |order| ensures EliminatedAt(plan, order, i) {
      assert order[i] == plan[i].work;
    }
    EliminationExcludesCycles(plan, order);
  }

  // ----- accepted and not produced ----------------------------------------------------------

  /** The first item is skipped before the second is even planned. */
  const EARLY: Db := Db(1, APART, map[], [
    Planning(1, A),
    Event(2, A, Unavailable, None, None, None, Some(InputUnknown)),
    Planning(3, B)], map[], map[])

  lemma EarlyIsAccepted()
    ensures Accepts(EARLY) && RowsValid(EARLY.events)
  {
    TwoItemsAreValid(APART);
    var one := StepTo(START, EARLY.events[0]);
    var two := StepTo(one, EARLY.events[1]);
    assert AuditTo(EARLY, 0) == Some(START);
    assert AuditTo(EARLY, 1) == Some(one);
    assert AuditTo(EARLY, 2) == Some(two);
    assert AuditTo(EARLY, 3) == Some(StepTo(two, EARLY.events[2]));
  }

  /** The verifier does not ask that all planned rows come first. */
  lemma EarlySkipIsNotProduced(ops: seq<Op>)
    ensures Accepts(EARLY) && Run(Created(APART), ops) != EARLY
  {
    hide Accepts, Run, RowsValid;
    EarlyIsAccepted();
    TwoItemsAreValid(APART);
    AcceptedIsProducedExactly(EARLY);
    assert Created(APART).events[1].work == B && EARLY.events[1].work == A;
    assert ProducedBy(EARLY, ops) <==> Run(Created(APART), ops) == EARLY;
  }

  /** A recovery that marks one item and leaves another in flight is accepted, and produced by nothing. */
  lemma HalfRecoveryIsNotProduced(db: Db, w: Id, v: Id, ops: seq<Op>)
    requires Healthy(db) && InState(db, w, InFlight) && InState(db, v, InFlight) && w != v
    ensures var half := Plus(db, UncertainRow(db, w)); Accepts(half) && Run(Created(db.plan), ops) != half
  {
    hide Sane, Accepts, Run, InFlightAt;
    var half := Plus(db, UncertainRow(db, w));
    MarkOne(db, w);
    HealthyAccepted(half);
    HealthyRows(half);
    CurrentAfterAppend(db.events, UncertainRow(db, w), v);
    InFlightNow(half, v);
    InFlightSeen(half.events, |half.events|, v);
    HealthyValidPlan(db);
    AcceptedIsProducedExactly(half);
    assert ProducedBy(half, ops) <==> Run(Created(db.plan), ops) == half;
  }

  /** Going on with anything but the other marking is accepted too, and nothing that follows is ever produced. */
  lemma HalfRecoveryGoesOn(db: Db, w: Id, v: Id, e: Event, later: Db, ops: seq<Op>)
    requires Healthy(db) && InState(db, w, InFlight) && InState(db, v, InFlight) && w != v
    requires var half := Plus(db, UncertainRow(db, w));
      && Admitted(half, e) && e.state != Uncertain
      && later.plan == db.plan && Plus(half, e).events <= later.events
    ensures Accepts(Plus(Plus(db, UncertainRow(db, w)), e))
    ensures Run(Created(db.plan), ops) != later
  {
    hide Sane, Accepts, Run, InFlightAt, Admitted, Producible, Orderly, SomeInFlight;
    var half, n := Plus(db, UncertainRow(db, w)), |db.events|;
    MarkOne(db, w);
    InsertKeepsAccepted(half, e);
    CurrentAfterAppend(db.events, UncertainRow(db, w), v);
    InFlightNow(half, v);
    InFlightSeen(half.events, n + 1, v);
    InFlightPrefix(half.events, later.events[n + 1..], n + 1);
    assert half.events + later.events[n + 1..] == later.events;
    HealthyValidPlan(db);
    EveryRunIsProducible(db.plan, ops);
    if Run(Created(db.plan), ops) == later {
      MarksAreTogether(later, n);
    }
  }

  lemma MarksAreTogether(db: Db, n: nat)
    requires Producible(db) && n + 1 < |db.events| && db.events[n].state == Uncertain
    requires SomeInFlight(db.events, n + 1)
    ensures db.events[n + 1].state == Uncertain
  {
    hide SomeInFlight, LeastInFlight;
    assert MarksInOrder(db.events, n);
  }

  lemma HealthyValidPlan(db: Db)
    requires Healthy(db)
    ensures ValidPlan(db.plan)
  {
    HealthySays(db);
  }

  // ----- histories that the operations do produce -------------------------------------------------

  const ALWAYS: nat -> bool := (n: nat) => true

  /** A call that succeeds, and the state its item is in afterwards. */
  ghost predicate Goes(db: Db, op: Op, later: Db, w: Id, state: State) {
    && Apply(db, op) == Ok(later) && Healthy(later) && later.plan == db.plan && InState(later, w, state)
    && forall v | v != w :: Current(later, v) == Current(db, v)
  }

  lemma ReserveGoes(db: Db, w: Id, a: Id) returns (later: Db)
    requires Healthy(db) && InState(db, w, Planned) && DepsCompleted(db, w) && a !in db.attempts
    ensures Goes(db, OpReserve(w, REQUEST, a, ALWAYS), later, w, Reserved)
    ensures later.attempts == db.attempts[a := Attempt(w, REQUEST)] && later.reconciliations == db.reconciliations
  {
    hide Sane, LedgerOps.Reserve, DepsCompleted;
    ReserveAgrees(db, w, REQUEST, a, ALWAYS);
    ReserveMoves(db, w, REQUEST, a, ALWAYS);
    later := LedgerOps.Reserve(db, w, REQUEST, a, ALWAYS).value;
  }

  lemma MoveGoes(db: Db, op: Op, a: Id, source: State, target: State, result: Option<Digest>, code: Option<Code>)
      returns (later: Db)
    requires Healthy(db) && PlainMove(source, target, result, code)
    requires a in db.attempts && InState(db, db.attempts[a].work, source)
    requires Apply(db, op) == Transition(db, a, source, target, result, code)
    ensures Goes(db, op, later, db.attempts[a].work, target)
    ensures later.attempts == db.attempts && later.reconciliations == db.reconciliations
  {
    hide Sane, Transition, Apply;
    TransitionAgrees(db, a, source, target, result, code);
    TransitionMoves(db, a, source, target, result, code);
    later := Transition(db, a, source, target, result, code).value;
  }

  lemma CreatedPlanned(plan: seq<Row>, w: Id)
    requires plan == APART || plan == PAIR
    requires w == A || w == B
    ensures Healthy(Created(plan)) && InState(Created(plan), w, Planned)
  {
    TwoItemsAreValid(plan);
    CreatedHealthy(plan);
    var db := Created(plan);
    assert db.events[0] == PlannedEvent(0, A) && db.events[1] == PlannedEvent(1, B);
    assert Last(db.events, 1, A) == Some(0) && Last(db.events, 2, A) == Last(db.events, 1, A);
    assert Last(db.events, 2, B) == Some(1);
  }

  /** Items without dependencies can all be in flight at once, so half recoveries are within the verifier's reach. */
  lemma TwoInFlight() returns (ops: seq<Op>)
    ensures var db := Run(Created(APART), ops); Healthy(db) && InState(db, A, InFlight) && InState(db, B, InFlight)
  {
    hide Sane, Apply, Run, Created, Current;
    CreatedPlanned(APART, A);
    CreatedPlanned(APART, B);
    CreatedTables(APART);
    var d0, o1, o2 := Created(APART), OpReserve(A, REQUEST, X, ALWAYS), OpReserve(B, REQUEST, Y, ALWAYS);
    FreeToReserve(d0, A);
    var d1 := ReserveGoes(d0, A, X);
    FreeToReserve(d1, B);
    var d2 := ReserveGoes(d1, B, Y);
    StartApplies(d2, X);
    var d3 := MoveGoes(d2, OpStart(X), X, Reserved, InFlight, None, None);
    StartApplies(d3, Y);
    var d4 := MoveGoes(d3, OpStart(Y), Y, Reserved, InFlight, None, None);
    RunStep(d0, [], o1, d0, d1);
    RunStep(d0, [] + [o1], o2, d1, d2);
    RunStep(d0, [] + [o1] + [o2], OpStart(X), d2, d3);
    RunStep(d0, [] + [o1] + [o2] + [OpStart(X)], OpStart(Y), d3, d4);
    ops := [] + [o1] + [o2] + [OpStart(X)] + [OpStart(Y)];
  }

  lemma FreeToReserve(db: Db, w: Id)
    requires db.plan == APART && (w == A || w == B)
    ensures DepsCompleted(db, w)
  {
    TwoItemsAreValid(APART);
  }

  lemma StartApplies(db: Db, a: Id)
    ensures Apply(db, OpStart(a)) == Transition(db, a, Reserved, InFlight, None, None)
  {
  }

  lemma CreatedTables(plan: seq<Row>)
    ensures Created(plan).attempts == map[] && Created(plan).reconciliations == map[] && Created(plan).plan == plan
    ensures Run(Created(plan), []) == Created(plan)
  {
  }

  lemma RunStep(start: Db, ops: seq<Op>, op: Op, db: Db, later: Db)
    requires Run(start, ops) == db && Apply(db, op) == Ok(later)
    ensures Run(start, ops + [op]) == later
  {
    RunOneMore(start, ops, op);
  }

  lemma InterruptedRun() returns (ops: seq<Op>, db: Db)
    ensures Run(Created(PAIR), ops) == db && Healthy(db) && db.plan == PAIR && db.reconciliations == map[]
    ensures X in db.attempts && db.attempts[X].work == A
    ensures InState(db, A, Uncertain) && InState(db, B, Planned)
  {
    hide Sane, Apply, Run, Created, Current;
    CreatedPlanned(PAIR, A);
    CreatedPlanned(PAIR, B);
    CreatedTables(PAIR);
    TwoItemsAreValid(PAIR);
    var d0, o1 := Created(PAIR), OpReserve(A, REQUEST, X, ALWAYS);
    var d1 := ReserveGoes(d0, A, X);
    StartApplies(d1, X);
    var d2 := MoveGoes(d1, OpStart(X), X, Reserved, InFlight, None, None);
    forall v | v != A ensures !InState(d2, v, InFlight) {
      HealthyWork(d2, v);
    }
    db := RecoverGoes(d2, A);
    RunStep(d0, [], o1, d0, d1);
    RunStep(d0, [] + [o1], OpStart(X), d1, d2);
    RunStep(d0, [] + [o1] + [OpStart(X)], OpRecover, d2, db);
    ops := [] + [o1] + [OpStart(X)] + [OpRecover];
  }

  /** A blocked item stays blocked though its dependency is completed later: the operations produce such a ledger. */
  lemma BlockedThoughCompleted() returns (ops: seq<Op>, db: Db)
    ensures Run(Created(PAIR), ops) == db && Accepts(db)
    ensures InState(db, B, Blocked) && A in DepsOf(PAIR, B) && DepsCompleted(db, B) && db.plan == PAIR
  {
    hide Sane, Apply, Run, Created, Current, Accepts;
    var before, d0 := InterruptedRun();
    var d1 := SkipGoes(d0, B);
    var d2 := ReconcileGoes(d1, X);
    CompleteApplies(d2, X);
    db := MoveGoes(d2, OpComplete(X), X, ResultSaved, Completed, None, None);
    var o1, o2 := OpSkip(B, Blocked, Code.DependencyUnresolved), OpReconcile(X, RESULT, REQUEST);
    RunStep(Created(PAIR), before, o1, d0, d1);
    RunStep(Created(PAIR), before + [o1], o2, d1, d2);
    RunStep(Created(PAIR), before + [o1] + [o2], OpComplete(X), d2, db);
    HealthyAccepted(db);
    TwoItemsAreValid(PAIR);
    ops := before + [o1] + [o2] + [OpComplete(X)];
  }

  lemma CompleteApplies(db: Db, a: Id)
    ensures Apply(db, OpComplete(a)) == Transition(db, a, ResultSaved, Completed, None, None)
  {
  }

  lemma RecoverGoes(db: Db, w: Id) returns (later: Db)
    requires Healthy(db) && InState(db, w, InFlight) && forall v | v != w :: !InState(db, v, InFlight)
    ensures Goes(db, OpRecover, later, w, Uncertain)
    ensures later.attempts == db.attempts && later.reconciliations == db.reconciliations
  {
    hide Sane, Recover, Current;
    RecoverAgrees(db);
    later := Recover(db).value;
  }

  lemma SkipGoes(db: Db, w: Id) returns (later: Db)
    requires Healthy(db) && InState(db, w, Planned)
    ensures Goes(db, OpSkip(w, Blocked, Code.DependencyUnresolved), later, w, Blocked)
    ensures later.attempts == db.attempts && later.reconciliations == db.reconciliations
  {
    hide Sane, Skip, Current;
    SkipAgrees(db, w, Blocked, Code.DependencyUnresolved);
    SkipMoves(db, w, Blocked, Code.DependencyUnresolved);
    later := Skip(db, w, Blocked, Code.DependencyUnresolved).value;
  }

  lemma ReconcileGoes(db: Db, a: Id) returns (later: Db)
    requires Healthy(db) && a in db.attempts && a !in db.reconciliations && InState(db, db.attempts[a].work, Uncertain)
    ensures Goes(db, OpReconcile(a, RESULT, REQUEST), later, db.attempts[a].work, ResultSaved)
    ensures later.attempts == db.attempts
  {
    hide Sane, ReconcileResult, Current;
    ReconcileAgrees(db, a, RESULT, REQUEST);
    ReconcileMoves(db, a, RESULT, REQUEST);
    later := ReconcileResult(db, a, RESULT, REQUEST).value;
  }
}
