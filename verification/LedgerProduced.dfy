/**
 Exactly which accepted histories the operations can produce: those whose log starts
 with the planned rows, numbers its rows without a gap, lets each recovery mark all
 items then in flight in the order of their ids, and is stored under the least schema
 version its evidence tables need.
 */
module LedgerProduced {
  import opened Wrappers
  import opened Plans
  import opened LedgerTables
  import opened LedgerAudit
  import opened LedgerSoundness
  import opened LedgerOps
  import opened LedgerRuns
  import Sorting

  // ----- what can be read off the rows -------------------------------------------------------

  predicate InFlightAt(events: seq<Event>, n: nat, w: Id)
    requires n <= |events|
  {
    StateAt(events, n, w).Some? && StateAt(events, n, w).value.state == InFlight
  }

  predicate SomeInFlight(events: seq<Event>, n: nat)
    requires n <= |events|
  {
    exists j | 0 <= j < n :: InFlightAt(events, n, events[j].work)
  }

  predicate LeastInFlight(events: seq<Event>, n: nat, w: Id)
    requires n <= |events|
  {
    && InFlightAt(events, n, w)
    && forall j | 0 <= j < n && InFlightAt(events, n, events[j].work) :: w.key <= events[j].work.key
  }

  /** A marking takes the least item in flight, and another one follows it as long as some item is left in flight. */
  predicate MarksInOrder(events: seq<Event>, i: nat)
    requires i < |events|
  {
    events[i].state == Uncertain ==>
      && LeastInFlight(events, i, events[i].work)
      && (SomeInFlight(events, i + 1) ==> i + 1 == |events| || events[i + 1].state == Uncertain)
  }

  predicate Orderly(events: seq<Event>) {
    forall i | 0 <= i < |events| :: MarksInOrder(events, i)
  }

  /** No recovery was left half done. */
  predicate Closed(events: seq<Event>) {
    (events != [] && events[|events| - 1].state == Uncertain) ==> !SomeInFlight(events, |events|)
  }

  predicate Consecutive(events: seq<Event>) {
    forall i | 0 <= i < |events| :: events[i].id == i + 1
  }

  function LeastFor(reconciliations: map<Id, Reconciliation>, retries: map<Id, Retry>): nat {
    if retries != map[] then 3 else if reconciliations != map[] then 2 else 1
  }

  function LeastVersion(db: Db): nat {
    LeastFor(db.reconciliations, db.retries)
  }

  predicate Producible(db: Db) {
    && Created(db.plan).events <= db.events
    && Consecutive(db.events)
    && Orderly(db.events) && Closed(db.events)
    && db.version == LeastVersion(db)
  }

  // ----- every run is producible ----------------------------------------------------------------

  lemma InFlightPrefix(events: seq<Event>, more: seq<Event>, n: nat)
    requires n <= |events|
    ensures forall w :: InFlightAt(events + more, n, w) <==> InFlightAt(events, n, w)
    ensures SomeInFlight(events + more, n) <==> SomeInFlight(events, n)
    ensures forall w :: LeastInFlight(events + more, n, w) <==> LeastInFlight(events, n, w)
  {
    forall w ensures InFlightAt(events + more, n, w) <==> InFlightAt(events, n, w) {
      LastPrefix(events, more, n, w);
    }
  }

  /** A marking of the least item in flight may follow anything orderly; any other event only a finished recovery. */
  lemma AppendOrderly(events: seq<Event>, e: Event)
    requires Orderly(events)
    requires if e.state == Uncertain then LeastInFlight(events, |events|, e.work) else Closed(events)
    ensures Orderly(events + [e]) && (e.state != Uncertain ==> Closed(events + [e]))
  {
    hide InFlightAt, SomeInFlight, LeastInFlight;
    var later := events + [e];
    forall i | 0 <= i < |later| ensures MarksInOrder(later, i) {
      InFlightPrefix(events, [e], i);
      if i < |events| {
        assert MarksInOrder(events, i);
        InFlightPrefix(events, [e], i + 1);
      }
    }
  }

  lemma InFlightNow(db: Db, w: Id)
    ensures InState(db, w, InFlight) <==> InFlightAt(db.events, |db.events|, w)
  {
  }

  lemma NoneInFlight(db: Db)
    requires forall w :: !InState(db, w, InFlight)
    ensures Closed(db.events)
  {
    forall w ensures !InFlightAt(db.events, |db.events|, w) {
      assert !InState(db, w, InFlight);
    }
  }

  /** The items in flight, in the order of their ids. */
  predicate Ascending(works: seq<Id>) {
    forall i, j | 0 <= i < j < |works| :: works[i].key < works[j].key
  }

  lemma WorksInOrder(db: Db)
    requires Healthy(db)
    ensures Ascending(InFlightWorks(db))
    ensures forall w :: w in InFlightWorks(db) <==> InState(db, w, InFlight)
  {
    hide Sane;
    var listed, after := InFlightIn(db, db.plan), (x: Id, y: Id) => x.key > y.key;
    HealthyPlan(db);
    InFlightListed(db, db.plan);
    Sorting.SortDistinct(listed, after);
    Sorting.SortSorted(listed, after);
    forall w ensures w in InFlightWorks(db) <==> InState(db, w, InFlight) {
      Sorting.SortMembers(listed, after, w);
      HealthyWork(db, w);
    }
    var works := InFlightWorks(db);
    forall i, j | 0 <= i < j < |works| ensures works[i].key < works[j].key {
      assert works[i] != works[j] && !after(works[i], works[j]);
    }
  }

  lemma HealthyPlan(db: Db)
    requires Healthy(db)
    ensures UniqueWorks(db.plan)
  {
    HealthySays(db);
  }

  lemma FirstIsLeast(db: Db, works: seq<Id>)
    requires works != [] && Ascending(works) && forall w :: w in works <==> InState(db, w, InFlight)
    ensures LeastInFlight(db.events, |db.events|, works[0])
  {
    assert works[0] in works;
    forall j | 0 <= j < |db.events| && InFlightAt(db.events, |db.events|, db.events[j].work)
      ensures works[0].key <= db.events[j].work.key
    {
      assert InState(db, db.events[j].work, InFlight);
      var k :| 0 <= k < |works| && works[k] == db.events[j].work;
    }
  }

  /** After marking the first, the rest is what is still in flight. */
  lemma RestStaysInFlight(db: Db, works: seq<Id>)
    requires works != [] && Ascending(works) && forall w :: w in works <==> InState(db, w, InFlight)
    ensures Current(db, works[0]).Some?
    ensures var next := Plus(db, UncertainRow(db, works[0]));
      forall w :: w in works[1..] <==> InState(next, w, InFlight)
    ensures Ascending(works[1..])
  {
    assert works[0] in works;
    var next := Plus(db, UncertainRow(db, works[0]));
    forall w | w in works[1..] ensures InState(next, w, InFlight) {
      var k :| 0 <= k < |works[1..]| && works[1..][k] == w;
      assert works[k + 1] == w && works[0].key < works[k + 1].key && w in works;
      CurrentAfterAppend(db.events, UncertainRow(db, works[0]), w);
    }
    forall w | InState(next, w, InFlight) ensures w in works[1..] {
      CurrentAfterAppend(db.events, UncertainRow(db, works[0]), w);
      assert w != works[0] && InState(db, w, InFlight) && w in works;
    }
  }

  lemma {:induction false} MarkingIsOrderly(db: Db, works: seq<Id>)
    requires Healthy(db) && Consecutive(db.events) && Orderly(db.events)
    requires Ascending(works) && forall w :: w in works <==> InState(db, w, InFlight)
    ensures var r := MarkUncertain(db, works);
      r.Ok? && Consecutive(r.value.events) && Orderly(r.value.events) && Closed(r.value.events)
        && SameTables(db, r.value)
    decreases |works|
  {
    hide Sane, Orderly, Closed, EventGuard, LeastInFlight;
    if works == [] {
      forall w ensures !InState(db, w, InFlight) {
      }
      NoneInFlight(db);
    } else {
      assert works[0] in works;
      MarkOne(db, works[0]);
      FirstIsLeast(db, works);
      RestStaysInFlight(db, works);
      AppendOrderly(db.events, UncertainRow(db, works[0]));
      MarkingIsOrderly(Plus(db, UncertainRow(db, works[0])), works[1..]);
    }
  }

  /** One event that is no marking. */
  lemma PlainEventProduces(db: Db, next: Db, e: Event)
    requires Producible(db) && next.plan == db.plan && next.events == db.events + [e]
    requires e.id == NextId(db.events) && e.state != Uncertain && next.version == LeastVersion(next)
    ensures Producible(next)
  {
    hide Orderly, Closed;
    AppendOrderly(db.events, e);
  }

  lemma TransitionProduces(db: Db, a: Id, source: State, target: State, result: Option<Digest>, code: Option<Code>)
    requires Healthy(db) && Producible(db) && PlainMove(source, target, result, code) && target != Uncertain
    requires Transition(db, a, source, target, result, code).Ok?
    ensures Producible(Transition(db, a, source, target, result, code).value)
  {
    hide Sane, Producible, Transition;
    TransitionAgrees(db, a, source, target, result, code);
    VersionIsLeast(db);
    PlainEventProduces(db, Transition(db, a, source, target, result, code).value, MoveRow(db, a, target, result, code));
  }

  lemma VersionIsLeast(db: Db)
    requires Producible(db)
    ensures db.version == LeastVersion(db)
  {
  }

  lemma ReserveProduces(db: Db, w: Id, request: Digest, a: Id, admit: nat -> bool)
    requires Healthy(db) && Producible(db) && LedgerOps.Reserve(db, w, request, a, admit).Ok?
    ensures Producible(LedgerOps.Reserve(db, w, request, a, admit).value)
  {
    hide Sane, Producible, LedgerOps.Reserve;
    ReserveAgrees(db, w, request, a, admit);
    VersionIsLeast(db);
    PlainEventProduces(db, ReservedDb(db, w, request, a), ReservedRow(db, w, request, a));
  }

  lemma SkipProduces(db: Db, w: Id, state: State, code: Code)
    requires Healthy(db) && Producible(db) && Skip(db, w, state, code).Ok?
    ensures Producible(Skip(db, w, state, code).value)
  {
    hide Sane, Producible, Skip;
    SkipAgrees(db, w, state, code);
    VersionIsLeast(db);
    PlainEventProduces(db, Skip(db, w, state, code).value,
                       Event(NextId(db.events), w, state, None, None, None, Some(code)));
  }

  lemma RecoverProduces(db: Db)
    requires Healthy(db) && Producible(db)
    ensures Recover(db).Ok? && Producible(Recover(db).value)
  {
    hide Sane, Orderly, Closed, MarkUncertain, InFlightWorks;
    WorksInOrder(db);
    MarkingIsOrderly(db, InFlightWorks(db));
  }

  lemma RetryProduces(db: Db, a: Id, receipt: Digest, evidence: Digest)
    requires Healthy(db) && Producible(db) && AuthorizeRetry(db, a, receipt, evidence).Ok?
    ensures Producible(AuthorizeRetry(db, a, receipt, evidence).value)
  {
    hide Sane, Producible, AuthorizeRetry;
    RetryAgrees(db, a, receipt, evidence);
    RowsNeedVersions(db);
    var later := RetriedDb(db, a, receipt, evidence);
    assert a in later.retries;
    PlainEventProduces(db, later, RetryRow(db, a));
  }

  lemma ReconcileProduces(db: Db, a: Id, result: Digest, receipt: Digest)
    requires Healthy(db) && Producible(db) && ReconcileResult(db, a, result, receipt).Ok?
    ensures Producible(ReconcileResult(db, a, result, receipt).value)
  {
    hide Sane, Producible, ReconcileResult;
    ReconcileAgrees(db, a, result, receipt);
    RowsNeedVersions(db);
    VersionIsLeast(db);
    if a !in db.reconciliations {
      var later := ReconciledDb(db, a, result, receipt);
      assert a in later.reconciliations;
      PlainEventProduces(db, later, ReconcileRow(db, a, result));
    }
  }

  lemma ApplyProduces(db: Db, op: Op)
    requires Healthy(db) && Producible(db)
    ensures Producible(LedgerOps.After(db, op))
  {
    hide Sane, Producible, Transition, LedgerOps.Reserve, Skip, Recover, AuthorizeRetry, ReconcileResult;
    if Apply(db, op).Ok? {
      match op {
        case OpReserve(w, request, uuid, admit) => ReserveProduces(db, w, request, uuid, admit);
        case OpStart(a) => TransitionProduces(db, a, Reserved, InFlight, None, None);
        case OpRecord(a, result) => TransitionProduces(db, a, InFlight, ResultSaved, Some(result), None);
        case OpComplete(a) => TransitionProduces(db, a, ResultSaved, Completed, None, None);
        case OpFail(a, code, limited) =>
          TransitionProduces(db, a, InFlight, if limited then Limited else Failed, None, Some(code));
        case OpSkip(w, state, code) => SkipProduces(db, w, state, code);
        case OpRecover => RecoverProduces(db);
        case OpRetry(a, receipt, evidence) => RetryProduces(db, a, receipt, evidence);
        case OpReconcile(a, result, receipt) => ReconcileProduces(db, a, result, receipt);
      }
    }
  }

  lemma CreatedIsProducible(plan: seq<Row>)
    ensures Producible(Created(plan))
  {
    var events := Created(plan).events;
    forall i | 0 <= i < |events| ensures events[i] == PlannedEvent(i, plan[i].work) {
    }
  }

  /** Whatever the operations produce is accepted and producible. */
  lemma {:induction false} EveryRunIsProducible(plan: seq<Row>, ops: seq<Op>)
    requires ValidPlan(plan)
    ensures var db := Run(Created(plan), ops);
      Healthy(db) && Accepts(db) && RowsValid(db.events) && Producible(db) && db.plan == plan
  {
    hide Sane, Producible, LedgerOps.After, ValidPlan;
    EveryRunIsAccepted(plan, ops);
    HealthyRows(Run(Created(plan), ops));
    if ops == [] {
      CreatedIsProducible(plan);
    } else {
      EveryRunIsProducible(plan, ops[..|ops| - 1]);
      ApplyProduces(Run(Created(plan), ops[..|ops| - 1]), ops[|ops| - 1]);
      EventsOnlyGrow(Run(Created(plan), ops[..|ops| - 1]), ops[|ops| - 1]);
    }
  }

  lemma HealthyRows(db: Db)
    requires Healthy(db)
    ensures RowsValid(db.events)
  {
    HealthySays(db);
  }

  // ----- rebuilding the calls -----------------------------------------------------------------------

  ghost predicate Genuine(db: Db) {
    Accepts(db) && RowsValid(db.events) && Producible(db)
  }

  /** The database as it was after its first `n` events. */
  ghost function Cut(db: Db, n: nat): Db
    requires n <= |db.events|
  {
    var st := Pass(db, n);
    var reconciliations := map a | a in db.reconciliations && a in st.recovered :: db.reconciliations[a];
    var retries := map a | a in db.retries && a in st.retried :: db.retries[a];
    Db(LeastFor(reconciliations, retries), db.plan,
       map a | a in db.attempts && db.attempts[a].work in st.reserved :: db.attempts[a],
       db.events[..n], reconciliations, retries)
  }

  lemma CutState(db: Db, n: nat, w: Id)
    requires n <= |db.events|
    ensures Current(Cut(db, n), w) == StateAt(db.events, n, w)
  {
    assert db.events == db.events[..n] + db.events[n..];
    LastPrefix(db.events[..n], db.events[n..], n, w);
  }

  /** What the verifier has checked of event `n`. */
  lemma EventFacts(db: Db, n: nat)
    requires Genuine(db) && n < |db.events|
    ensures var e, prev := db.events[n], StateAt(db.events, n, db.events[n].work);
      && Audited(db, n) && Audited(db, n + 1) && Pass(db, n + 1) == StepTo(Pass(db, n), e)
      && Previous(Pass(db, n), e.work) == prev
      && EventRowOk(e) && e.work in Works(db.plan) && MoveOk(prev, e) && EvidenceOk(db, prev, e) && AttemptOk(db, e)
      && ReservationOk(db, Pass(db, n), prev, e) && CompletionOk(prev, e)
      && e.id == n + 1
    ensures RecoveryRows(db) == db.reconciliations && RetryRows(db) == db.retries && OneAttemptPerWork(db)
  {
    hide Created, Orderly, Closed, Balanced, AuditTo;
    AcceptedIsAudited(db);
    StepAt(db, n, |db.events|);
  }

  lemma AcceptedIsAudited(db: Db)
    requires Accepts(db)
    ensures Audited(db, |db.events|) && AttemptsOk(db) && ValidPlan(db.plan)
  {
  }

  lemma CutNextId(db: Db, n: nat)
    requires Producible(db) && n < |db.events|
    ensures NextId(Cut(db, n).events) == n + 1 == db.events[n].id
  {
  }

  /** An event that neither reserves nor leaves `uncertain` only grows the log. */
  lemma CutPlain(db: Db, n: nat)
    requires Genuine(db) && n < |db.events|
    requires db.events[n].state != Reserved
    requires !IsReceiptMove(StateAt(db.events, n, db.events[n].work), db.events[n])
    ensures Cut(db, n + 1) == Plus(Cut(db, n), db.events[n])
  {
    hide Genuine, AuditTo, EvidenceOk, ReservationOk, CompletionOk, MoveOk, AttemptOk, EventRowOk, OneAttemptPerWork;
    EventFacts(db, n);
    assert db.events[..n + 1] == db.events[..n] + [db.events[n]];
    assert Pass(db, n + 1).retried == Pass(db, n).retried;
  }

  /** Past its reservation, an item's next event carries its one attempt. */
  lemma SameAttempt(db: Db, n: nat)
    requires Genuine(db) && n < |db.events| && Healthy(Cut(db, n)) && db.events[n].attempt.Some?
    requires var prev := StateAt(db.events, n, db.events[n].work); prev.Some? && BeyondReservation(prev.value.state)
    ensures var cut, e, a := Cut(db, n), db.events[n], db.events[n].attempt.value;
      && a in cut.attempts && cut.attempts[a] == db.attempts[a] && cut.attempts[a].work == e.work
      && Current(cut, e.work) == StateAt(db.events, n, e.work)
    ensures var e, c := db.events[n], StateAt(db.events, n, db.events[n].work).value;
      c.attempt == e.attempt && c.request == e.request && c.work == e.work
  {
    hide Genuine, Sane;
    EventFacts(db, n);
    CutState(db, n, db.events[n].work);
    CutAttempt(Cut(db, n), db.events[n].work);
  }

  lemma CutAttempt(db: Db, w: Id)
    requires Healthy(db) && Current(db, w).Some? && BeyondReservation(Current(db, w).value.state)
    ensures var c := Current(db, w).value;
      && c.work == w && c.attempt.Some? && c.attempt.value in db.attempts && db.attempts[c.attempt.value].work == w
      && c.request == Some(db.attempts[c.attempt.value].request)
  {
    HealthySays(db);
    CurrentAttempt(db, w);
  }

  /** The state an item was in before event `n`. */
  ghost predicate Leaves(db: Db, n: nat, state: State)
    requires n < |db.events|
  {
    StateAt(db.events, n, db.events[n].work).Some? && StateAt(db.events, n, db.events[n].work).value.state == state
  }

  /** The call that wrote event `n`. */
  ghost function OpFor(db: Db, n: nat): Op
    requires Genuine(db) && n < |db.events|
  {
    EventFacts(db, n);
    var e := db.events[n];
    match e.state
    case Reserved =>
      if Leaves(db, n, Uncertain)
      then OpRetry(e.attempt.value, db.retries[e.attempt.value].receipt, db.retries[e.attempt.value].evidence)
      else OpReserve(e.work, e.request.value, e.attempt.value, (k: nat) => true)
    case InFlight => OpStart(e.attempt.value)
    case ResultSaved =>
      if Leaves(db, n, Uncertain)
      then OpReconcile(e.attempt.value, e.result.value, db.reconciliations[e.attempt.value].receipt)
      else OpRecord(e.attempt.value, e.result.value)
    case Completed => OpComplete(e.attempt.value)
    case Failed => OpFail(e.attempt.value, e.code.value, false)
    case Limited => OpFail(e.attempt.value, e.code.value, true)
    case Unavailable => OpSkip(e.work, e.state, e.code.value)
    case Blocked => OpSkip(e.work, e.state, e.code.value)
    case _ => OpRecover
  }

  ghost predicate Rebuilds(db: Db, n: nat, op: Op)
    requires n < |db.events|
  {
    Apply(Cut(db, n), op) == Ok(Cut(db, n + 1))
  }

  lemma RebuildMove(db: Db, n: nat, source: State, target: State, result: Option<Digest>, code: Option<Code>)
    requires Genuine(db) && n < |db.events| && Healthy(Cut(db, n)) && Leaves(db, n, source)
    requires PlainMove(source, target, result, code) && db.events[n].state == target
    requires target != Completed ==> result == db.events[n].result
    requires code == db.events[n].code
    ensures db.events[n].attempt.Some?
    ensures Transition(Cut(db, n), db.events[n].attempt.value, source, target, result, code) == Ok(Cut(db, n + 1))
  {
    hide Genuine, Sane, Transition, Cut;
    EventFacts(db, n);
    SameAttempt(db, n);
    var cut, e, a := Cut(db, n), db.events[n], db.events[n].attempt.value;
    TransitionAgrees(cut, a, source, target, result, code);
    GenuineIsProducible(db);
    CutNextId(db, n);
    assert MoveRow(cut, a, target, result, code) == e;
    CutPlain(db, n);
  }

  lemma GenuineIsProducible(db: Db)
    requires Genuine(db)
    ensures Producible(db)
  {
  }

  lemma RebuildSkip(db: Db, n: nat)
    requires Genuine(db) && n < |db.events| && Healthy(Cut(db, n))
    requires db.events[n].state == Unavailable || db.events[n].state == Blocked
    ensures db.events[n].code.Some?
    ensures Skip(Cut(db, n), db.events[n].work, db.events[n].state, db.events[n].code.value) == Ok(Cut(db, n + 1))
  {
    hide Genuine, Sane, Skip, Cut, EvidenceOk, ReservationOk, CompletionOk, AttemptOk, Producible, AuditTo, Audited,
      StepTo, OneAttemptPerWork;
    EventFacts(db, n);
    var cut, e := Cut(db, n), db.events[n];
    CutState(db, n, e.work);
    SkipAgrees(cut, e.work, e.state, e.code.value);
    GenuineIsProducible(db);
    CutNextId(db, n);
    CutPlain(db, n);
  }

  lemma DepsCut(db: Db, n: nat)
    requires Genuine(db) && n < |db.events| && db.events[n].state == Reserved
    ensures DepsCompleted(Cut(db, n), db.events[n].work)
  {
    hide Genuine, Cut, Pass;
    EventFacts(db, n);
    var w := db.events[n].work;
    CutPlan(db, n);
    forall d | d in DepsOf(db.plan, w) ensures InState(Cut(db, n), d, Completed) {
      CutState(db, n, d);
      LatestIsState(db, n);
      assert Previous(Pass(db, n), d) == StateAt(db.events, n, d);
    }
  }

  lemma CutPlan(db: Db, n: nat)
    requires n <= |db.events|
    ensures Cut(db, n).plan == db.plan
  {
  }

  lemma CutReserved(db: Db, n: nat)
    requires Genuine(db) && n < |db.events| && db.events[n].state == Reserved && Leaves(db, n, Planned)
    requires Healthy(Cut(db, n))
    ensures var cut, e := Cut(db, n), db.events[n];
      && e.attempt.Some? && e.request.Some? && e.attempt.value !in cut.attempts
      && Cut(db, n + 1) == ReservedDb(cut, e.work, e.request.value, e.attempt.value)
  {
    hide Genuine, Sane, Cut, EvidenceOk, ReservationOk, CompletionOk, MoveOk, Producible, AuditTo, Audited, StepTo;
    EventFacts(db, n);
    var cut, e, a := Cut(db, n), db.events[n], db.events[n].attempt.value;
    CutState(db, n, e.work);
    HealthyPlanned(cut, e.work);
    if a in cut.attempts {
      CutRow(db, n, a);
    }
    GenuineIsProducible(db);
    CutNextId(db, n);
    CutTables(db, n);
    CutAttemptsGrow(db, n);
  }

  lemma CutRow(db: Db, n: nat, a: Id)
    requires n <= |db.events| && a in Cut(db, n).attempts
    ensures a in db.attempts && Cut(db, n).attempts[a] == db.attempts[a]
  {
  }

  /** A first reservation changes no evidence and adds its event. */
  lemma CutTables(db: Db, n: nat)
    requires Genuine(db) && n < |db.events| && db.events[n].state == Reserved && Leaves(db, n, Planned)
    ensures var cut, next := Cut(db, n), Cut(db, n + 1);
      && next.version == cut.version && next.plan == cut.plan && next.events == cut.events + [db.events[n]]
      && next.reconciliations == cut.reconciliations && next.retries == cut.retries
  {
    hide Genuine, AuditTo, EvidenceOk, ReservationOk, CompletionOk, MoveOk, AttemptOk, EventRowOk, OneAttemptPerWork;
    EventFacts(db, n);
    assert db.events[..n + 1] == db.events[..n] + [db.events[n]];
    assert Pass(db, n + 1).retried == Pass(db, n).retried && Pass(db, n + 1).recovered == Pass(db, n).recovered;
  }

  lemma CutAttemptsGrow(db: Db, n: nat)
    requires Genuine(db) && n < |db.events| && db.events[n].state == Reserved
    ensures var e := db.events[n];
      && e.attempt.Some? && e.request.Some?
      && Cut(db, n + 1).attempts == Cut(db, n).attempts[e.attempt.value := Attempt(e.work, e.request.value)]
  {
    hide Genuine;
    EventFacts(db, n);
  }

  lemma RebuildReserve(db: Db, n: nat)
    requires Genuine(db) && n < |db.events| && Healthy(Cut(db, n))
    requires db.events[n].state == Reserved && Leaves(db, n, Planned)
    ensures Rebuilds(db, n, OpFor(db, n))
  {
    hide Genuine, Sane, LedgerOps.Reserve, Cut, DepsCompleted;
    var cut, e := Cut(db, n), db.events[n];
    CutReserved(db, n);
    DepsCut(db, n);
    CutState(db, n, e.work);
    ReserveAgrees(cut, e.work, e.request.value, e.attempt.value, (k: nat) => true);
  }

  lemma CutRetried(db: Db, n: nat)
    requires Genuine(db) && n < |db.events| && db.events[n].state == Reserved && Leaves(db, n, Uncertain)
    requires Healthy(Cut(db, n))
    ensures var cut, e, a := Cut(db, n), db.events[n], db.events[n].attempt;
      && a.Some? && a.value in db.retries && a.value !in cut.retries && a.value in cut.attempts
      && Cut(db, n + 1) == RetriedDb(cut, a.value, db.retries[a.value].receipt, db.retries[a.value].evidence)
  {
    hide Genuine, Sane, Cut, ReservationOk, CompletionOk, MoveOk, Producible, AuditTo, Audited, StepTo;
    EventFacts(db, n);
    SameAttempt(db, n);
    GenuineIsProducible(db);
    CutNextId(db, n);
    RetriedTables(db, n);
  }

  lemma RetriedTables(db: Db, n: nat)
    requires Genuine(db) && n < |db.events| && db.events[n].state == Reserved && Leaves(db, n, Uncertain)
    ensures db.events[n].attempt.Some? && db.events[n].attempt.value in db.retries
    ensures var cut, next, a := Cut(db, n), Cut(db, n + 1), db.events[n].attempt.value;
      && a !in cut.retries && next.plan == cut.plan && next.events == cut.events + [db.events[n]]
      && next.attempts == cut.attempts && next.reconciliations == cut.reconciliations
      && next.retries == cut.retries[a := db.retries[a]] && cut.version <= 3 == next.version
  {
    hide Genuine, ReservationOk, CompletionOk, MoveOk, AttemptOk, EventRowOk, Producible, AuditTo;
    EventFacts(db, n);
    RetryComesOnce(db, n);
    WasReservedInPass(db, n, db.events[n].work);
    assert db.events[..n + 1] == db.events[..n] + [db.events[n]];
    assert Pass(db, n + 1).reserved == Pass(db, n).reserved;
  }

  lemma RetryComesOnce(db: Db, n: nat)
    requires Genuine(db) && n < |db.events| && db.events[n].state == Reserved && Leaves(db, n, Uncertain)
    ensures db.events[n].attempt.Some? && db.events[n].attempt.value !in Pass(db, n).retried
  {
    hide Producible;
    EventFacts(db, n);
    var e := db.events[n];
    if e.attempt.value in Pass(db, n).retried {
      RetryIsPast(db, n, e.attempt.value);
    }
  }

  lemma RebuildRetry(db: Db, n: nat)
    requires Genuine(db) && n < |db.events| && Healthy(Cut(db, n))
    requires db.events[n].state == Reserved && Leaves(db, n, Uncertain)
    ensures Rebuilds(db, n, OpFor(db, n))
  {
    hide Genuine, Sane, AuthorizeRetry, Cut;
    var cut, e := Cut(db, n), db.events[n];
    CutRetried(db, n);
    SameAttempt(db, n);
    var row := db.retries[e.attempt.value];
    RetryAgrees(cut, e.attempt.value, row.receipt, row.evidence);
  }

  lemma CutReconciled(db: Db, n: nat)
    requires Genuine(db) && n < |db.events| && db.events[n].state == ResultSaved && Leaves(db, n, Uncertain)
    requires Healthy(Cut(db, n))
    ensures var cut, e, a := Cut(db, n), db.events[n], db.events[n].attempt;
      && a.Some? && e.result.Some? && a.value in db.reconciliations && a.value in cut.attempts
      && a.value !in cut.reconciliations
      && Cut(db, n + 1) == ReconciledDb(cut, a.value, e.result.value, db.reconciliations[a.value].receipt)
  {
    hide Genuine, Sane, Cut, ReservationOk, CompletionOk, MoveOk;
    EventFacts(db, n);
    SameAttempt(db, n);
    GenuineIsProducible(db);
    CutNextId(db, n);
    ReconcileIsUnused(Cut(db, n), db.events[n].attempt.value);
    ReconciledTables(db, n);
  }

  lemma ReconciledTables(db: Db, n: nat)
    requires Genuine(db) && n < |db.events| && db.events[n].state == ResultSaved && Leaves(db, n, Uncertain)
    ensures db.events[n].attempt.Some? && db.events[n].attempt.value in db.reconciliations
    ensures var cut, next, a := Cut(db, n), Cut(db, n + 1), db.events[n].attempt.value;
      && next.plan == cut.plan && next.events == cut.events + [db.events[n]] && next.attempts == cut.attempts
      && next.reconciliations == cut.reconciliations[a := db.reconciliations[a]] && next.retries == cut.retries
      && next.version == LeastVersion(next) && cut.version == LeastVersion(cut)
  {
    hide Genuine, ReservationOk, CompletionOk, MoveOk, AttemptOk, Previous, Producible, AuditTo;
    EventFacts(db, n);
    assert db.events[..n + 1] == db.events[..n] + [db.events[n]];
    assert Pass(db, n + 1).retried == Pass(db, n).retried && Pass(db, n + 1).reserved == Pass(db, n).reserved;
  }

  lemma RebuildReconcile(db: Db, n: nat)
    requires Genuine(db) && n < |db.events| && Healthy(Cut(db, n))
    requires db.events[n].state == ResultSaved && Leaves(db, n, Uncertain)
    ensures Rebuilds(db, n, OpFor(db, n))
  {
    hide Genuine, Sane, ReconcileResult, Cut;
    var cut, e := Cut(db, n), db.events[n];
    CutReconciled(db, n);
    SameAttempt(db, n);
    ReconcileAgrees(cut, e.attempt.value, e.result.value, db.reconciliations[e.attempt.value].receipt);
  }

  /** Starts, outcomes, completions and skips. */
  lemma RebuildPlain(db: Db, n: nat, source: State)
    requires Genuine(db) && n < |db.events| && Healthy(Cut(db, n)) && Leaves(db, n, source) && source != Uncertain
    requires var s := db.events[n].state; s != Planned && s != Reserved && s != Uncertain
    ensures Rebuilds(db, n, OpFor(db, n))
  {
    hide Genuine, Sane, Transition, Skip, Cut, EvidenceOk, ReservationOk, CompletionOk, AttemptOk, Producible,
      AuditTo, Audited, StepTo, StateAt, OneAttemptPerWork, RecoveryRows, RetryRows, Works;
    EventFacts(db, n);
    var e := db.events[n];
    if e.state == Unavailable || e.state == Blocked {
      RebuildSkip(db, n);
    } else {
      RebuildMove(db, n, source, e.state, if e.state == Completed then None else e.result, e.code);
    }
  }

  /** Every event but a marking was written by one call on the database before it. */
  lemma RebuildOne(db: Db, n: nat)
    requires Genuine(db) && |db.plan| <= n < |db.events| && Healthy(Cut(db, n)) && !db.events[n].state.Uncertain?
    ensures !db.events[n].state.Planned? && Rebuilds(db, n, OpFor(db, n))
  {
    hide Genuine, Sane, Cut, EvidenceOk, ReservationOk, CompletionOk, AttemptOk, Rebuilds, OpFor, AuditTo, Audited,
      StepTo, EventRowOk;
    EventFacts(db, n);
    PlannedBefore(db, n);
    var e := db.events[n];
    var prev := StateAt(db.events, n, e.work).value;
    if e.state == Reserved {
      if prev.state == Uncertain {
        RebuildRetry(db, n);
      } else {
        RebuildReserve(db, n);
      }
    } else if e.state == ResultSaved && prev.state == Uncertain {
      RebuildReconcile(db, n);
    } else {
      RebuildPlain(db, n, prev.state);
    }
  }

  /** Every item was planned among the first rows. */
  lemma PlannedBefore(db: Db, n: nat)
    requires Genuine(db) && |db.plan| <= n < |db.events|
    ensures StateAt(db.events, n, db.events[n].work).Some?
  {
    EventFacts(db, n);
    var k := RowIndex(db.plan, db.events[n].work);
    assert Created(db.plan).events[k].work == db.events[n].work;
    assert db.events[k] == Created(db.plan).events[k];
    LastAtLeast(db.events, k, n);
  }

  // ----- rebuilding a recovery -----------------------------------------------------------------

  lemma EventMarks(db: Db, n: nat)
    requires Producible(db) && n < |db.events|
    ensures MarksInOrder(db.events, n)
    ensures (n > 0 && db.events[n - 1].state == Uncertain) ==> MarksInOrder(db.events, n - 1)
  {
  }

  lemma CutMarked(db: Db, n: nat)
    requires Genuine(db) && n < |db.events| && db.events[n].state == Uncertain && Healthy(Cut(db, n))
    ensures InState(Cut(db, n), db.events[n].work, InFlight)
    ensures Cut(db, n + 1) == Plus(Cut(db, n), UncertainRow(Cut(db, n), db.events[n].work))
  {
    hide Genuine, Sane, Cut, EvidenceOk, ReservationOk, CompletionOk, AttemptOk, Producible, AuditTo, Audited,
      StepTo, OneAttemptPerWork;
    EventFacts(db, n);
    SameAttempt(db, n);
    CutState(db, n, db.events[n].work);
    GenuineIsProducible(db);
    CutNextId(db, n);
    CutPlain(db, n);
  }

  lemma CutInFlight(db: Db, n: nat)
    requires n <= |db.events|
    ensures forall w :: InState(Cut(db, n), w, InFlight) <==> InFlightAt(db.events, n, w)
  {
    hide Cut;
    forall w ensures InState(Cut(db, n), w, InFlight) <==> InFlightAt(db.events, n, w) {
      CutState(db, n, w);
    }
  }

  /** Something in flight has an event that says so. */
  lemma InFlightSeen(events: seq<Event>, n: nat, w: Id)
    requires n <= |events| && InFlightAt(events, n, w)
    ensures SomeInFlight(events, n) && exists j | 0 <= j < n :: events[j].work == w
  {
    var j := Last(events, n, w).value;
    assert InFlightAt(events, n, events[j].work);
  }

  /** In the middle of a recovery the next event marks the least item still in flight. */
  lemma NextMark(db: Db, n: nat, works: seq<Id>)
    requires Genuine(db) && 0 < n <= |db.events| && works != []
    requires Ascending(works) && forall w :: w in works <==> InState(Cut(db, n), w, InFlight)
    requires db.events[n - 1].state == Uncertain || (n < |db.events| && db.events[n].state == Uncertain)
    ensures n < |db.events| && db.events[n].state == Uncertain && db.events[n].work == works[0]
  {
    hide Cut, Genuine, Ascending, LeastInFlight, InFlightAt, SomeInFlight;
    CutInFlight(db, n);
    assert works[0] in works;
    InFlightSeen(db.events, n, works[0]);
    GenuineIsProducible(db);
    MustContinue(db, n);
    EventMarks(db, n);
    LeastIsFirst(db.events, n, works, db.events[n].work);
  }

  lemma MustContinue(db: Db, n: nat)
    requires Producible(db) && 0 < n <= |db.events| && SomeInFlight(db.events, n)
    requires db.events[n - 1].state == Uncertain || (n < |db.events| && db.events[n].state == Uncertain)
    ensures n < |db.events| && db.events[n].state == Uncertain
  {
    hide SomeInFlight, LeastInFlight;
    assert MarksInOrder(db.events, n - 1);
    assert db.events[..|db.events|] == db.events;
  }

  lemma LeastIsFirst(events: seq<Event>, n: nat, works: seq<Id>, w: Id)
    requires n <= |events| && works != [] && Ascending(works) && LeastInFlight(events, n, w)
    requires forall v :: v in works <==> InFlightAt(events, n, v)
    ensures w == works[0]
  {
    assert works[0] in works && w in works;
    InFlightSeen(events, n, works[0]);
    var k :| 0 <= k < |works| && works[k] == w;
    assert w.key <= works[0].key;
  }

  /** The block of markings that follows is what one recovery writes. */
  lemma {:induction false} RebuildMarks(db: Db, n: nat, works: seq<Id>)
    requires Genuine(db) && 0 < n <= |db.events| && Healthy(Cut(db, n))
    requires Ascending(works) && forall w :: w in works <==> InState(Cut(db, n), w, InFlight)
    requires works == [] || db.events[n - 1].state == Uncertain || (n < |db.events| && db.events[n].state == Uncertain)
    ensures n + |works| <= |db.events| && MarkUncertain(Cut(db, n), works) == Ok(Cut(db, n + |works|))
    ensures Healthy(Cut(db, n + |works|))
    decreases |works|
  {
    hide Cut, Genuine, Sane, Ascending, InsertEvent;
    if works != [] {
      NextMark(db, n, works);
      CutMarked(db, n);
      MarkOne(Cut(db, n), works[0]);
      RestStaysInFlight(Cut(db, n), works);
      RebuildMarks(db, n + 1, works[1..]);
    }
  }

  lemma RebuildRecovery(db: Db, n: nat) returns (next: nat)
    requires Genuine(db) && 0 < n < |db.events| && Healthy(Cut(db, n)) && db.events[n].state == Uncertain
    ensures n < next <= |db.events| && Apply(Cut(db, n), OpRecover) == Ok(Cut(db, next)) && Healthy(Cut(db, next))
  {
    hide Cut, Genuine, Sane, MarkUncertain, InFlightWorks;
    WorksInOrder(Cut(db, n));
    var works := InFlightWorks(Cut(db, n));
    CutMarked(db, n);
    assert db.events[n].work in works;
    RebuildMarks(db, n, works);
    next := n + |works|;
  }

  // ----- rebuilding a whole history ----------------------------------------------------------------

  lemma RunOneMore(db: Db, ops: seq<Op>, op: Op)
    requires Apply(Run(db, ops), op).Ok?
    ensures Run(db, ops + [op]) == Apply(Run(db, ops), op).value
  {
    hide Apply;
    assert (ops + [op])[..|ops|] == ops;
  }

  lemma {:induction false} Rebuild(db: Db, n: nat, ops: seq<Op>) returns (all: seq<Op>)
    requires Genuine(db) && |db.plan| <= n <= |db.events| && Run(Created(db.plan), ops) == Cut(db, n)
    ensures Run(Created(db.plan), all) == Cut(db, |db.events|)
    decreases |db.events| - n
  {
    hide Genuine, Cut, Run, Apply, Rebuilds;
    if n == |db.events| {
      return ops;
    }
    CutIsHealthy(db, n, ops);
    if db.events[n].state == Uncertain {
      var next := RebuildRecovery(db, n);
      RunOneMore(Created(db.plan), ops, OpRecover);
      all := Rebuild(db, next, ops + [OpRecover]);
    } else {
      RebuildOne(db, n);
      var op := OpFor(db, n);
      RebuiltIs(db, n, op);
      RunOneMore(Created(db.plan), ops, op);
      all := Rebuild(db, n + 1, ops + [op]);
    }
  }

  lemma RebuiltIs(db: Db, n: nat, op: Op)
    requires n < |db.events| && Rebuilds(db, n, op)
    ensures Apply(Cut(db, n), op) == Ok(Cut(db, n + 1))
  {
  }

  lemma CutIsHealthy(db: Db, n: nat, ops: seq<Op>)
    requires Genuine(db) && n <= |db.events| && Run(Created(db.plan), ops) == Cut(db, n)
    ensures Healthy(Cut(db, n)) && (n > 0 || |db.plan| > n)
  {
    hide Cut, Run, Sane;
    AcceptedIsAudited(db);
    EveryRunIsAccepted(db.plan, ops);
  }

  lemma {:induction false} PlannedPass(db: Db, n: nat)
    requires Genuine(db) && n <= |db.plan|
    ensures n <= |db.events| && Pass(db, n).reserved == {} && Pass(db, n).recovered == {} && Pass(db, n).retried == {}
  {
    hide Orderly, Closed, Accepts, EvidenceOk, AttemptOk, ReservationOk, CompletionOk, StateAt,
      EventRowOk, OneAttemptPerWork;
    if n > 0 {
      PlannedPass(db, n - 1);
      assert Created(db.plan).events[n - 1] == db.events[n - 1];
      EventFacts(db, n - 1);
    }
  }

  lemma CutAtPlan(db: Db)
    requires Genuine(db)
    ensures |db.plan| <= |db.events| && Cut(db, |db.plan|) == Created(db.plan)
  {
    hide Orderly, Closed, Accepts;
    PlannedPass(db, |db.plan|);
    assert db.events[..|db.plan|] == Created(db.plan).events;
  }

  lemma CutAtEnd(db: Db)
    requires Genuine(db)
    ensures Cut(db, |db.events|) == db
  {
    hide Created, Orderly, Closed;
    var n := |db.events|;
    assert db.events[..n] == db.events;
    assert Balanced(db, Pass(db, n));
    forall a | a in db.attempts ensures db.attempts[a].work in Pass(db, n).reserved {
      assert db.attempts[a].work in AttemptWorks(db);
    }
    assert Cut(db, n).attempts == db.attempts;
    assert Cut(db, n).reconciliations == db.reconciliations && Cut(db, n).retries == db.retries;
  }

  ghost predicate ProducedBy(db: Db, ops: seq<Op>) {
    Run(Created(db.plan), ops) == db
  }

  /** An accepted history is what some sequence of operations produces exactly when it is producible. */
  lemma AcceptedIsProducedExactly(db: Db)
    requires ValidPlan(db.plan)
    ensures (Accepts(db) && RowsValid(db.events) && Producible(db)) <==> exists ops :: ProducedBy(db, ops)
  {
    hide Accepts, RowsValid, Producible, Run, ValidPlan;
    if Accepts(db) && RowsValid(db.events) && Producible(db) {
      CutAtPlan(db);
      CutAtEnd(db);
      NoCalls(db.plan);
      var ops := Rebuild(db, |db.plan|, []);
      assert ProducedBy(db, ops);
    }
    if ops :| ProducedBy(db, ops) {
      EveryRunIsProducible(db.plan, ops);
    }
  }

  lemma NoCalls(plan: seq<Row>)
    ensures Run(Created(plan), []) == Created(plan)
  {
  }
}
