/**
 What acceptance by the history verifier guarantees, for any stored database whose
 rows pass the database's own row checks, however that database came about.
 */
module LedgerSoundness {
  import opened Wrappers
  import opened Plans
  import opened LedgerTables
  import opened LedgerAudit

  /** What SQLite enforces row by row: increasing event ids and the CHECK constraint. */
  predicate RowsValid(events: seq<Event>) {
    && (forall i, j | 0 <= i < j < |events| :: events[i].id < events[j].id)
    && (forall i | 0 <= i < |events| :: EventRowOk(events[i]))
  }

  // ----- reading the pass ---------------------------------------------------------------

  ghost predicate Audited(db: Db, n: nat) {
    n <= |db.events| && AuditTo(db, n).Some?
  }

  /** What the pass remembers after `n` accepted events. */
  ghost function Pass(db: Db, n: nat): Audit
    requires n <= |db.events|
  {
    if AuditTo(db, n).Some? then AuditTo(db, n).value else START
  }

  lemma {:induction false} AuditedPrefix(db: Db, i: nat, n: nat)
    requires i <= n && Audited(db, n)
    ensures Audited(db, i)
  {
    if i < n {
      AuditedPrefix(db, i, n - 1);
    }
  }

  /** The pass remembers, for each item, exactly its state row after the events read so far. */
  lemma {:induction false} LatestIsState(db: Db, n: nat)
    requires Audited(db, n)
    ensures Pass(db, n).count == n
    ensures forall w :: Previous(Pass(db, n), w) == StateAt(db.events, n, w)
  {
    if n > 0 {
      LatestIsState(db, n - 1);
      var st, e := Pass(db, n - 1), db.events[n - 1];
      PassStep(db, n);
      forall w ensures Previous(Pass(db, n), w) == StateAt(db.events, n, w) {
        StateStep(db.events, n, w);
      }
    }
  }

  lemma PassStep(db: Db, n: nat)
    requires 0 < n && Audited(db, n)
    ensures Audited(db, n - 1) && Pass(db, n) == StepTo(Pass(db, n - 1), db.events[n - 1])
    ensures StepOk(db, Pass(db, n - 1), db.events[n - 1])
  {
  }

  lemma StateStep(events: seq<Event>, n: nat, w: Id)
    requires 0 < n <= |events|
    ensures StateAt(events, n, w) == if events[n - 1].work == w then Some(events[n - 1]) else StateAt(events, n - 1, w)
  {
  }

  lemma StepAt(db: Db, i: nat, n: nat)
    requires i < n && Audited(db, n)
    ensures Audited(db, i) && StepOk(db, Pass(db, i), db.events[i])
    ensures Audited(db, i + 1) && Pass(db, i + 1) == StepTo(Pass(db, i), db.events[i])
    ensures Previous(Pass(db, i), db.events[i].work) == StateAt(db.events, i, db.events[i].work)
  {
    AuditedPrefix(db, i, n);
    AuditedPrefix(db, i + 1, n);
    LatestIsState(db, i);
  }

  // ----- every item follows the transition table --------------------------------------------

  /** The item of event `i` was in the state `Before` just before it. */
  function Before(events: seq<Event>, i: nat): Option<Event>
    requires i < |events|
  {
    StateAt(events, i, events[i].work)
  }

  /** Every item starts planned and moves along the transition table. */
  ghost predicate FollowsMoves(events: seq<Event>) {
    forall i: nat | i < |events| :: MoveAt(events, i)
  }

  predicate MoveAt(events: seq<Event>, i: nat)
    requires i < |events|
  {
    MoveOk(Before(events, i), events[i])
  }

  lemma AcceptedFollowsMoves(db: Db)
    requires Accepts(db)
    ensures FollowsMoves(db.events)
  {
    forall i: nat | i < |db.events| ensures MoveAt(db.events, i) {
      StepAt(db, i, |db.events|);
    }
  }

  /** A terminal state is final. */
  lemma {:induction false} TerminalStays(events: seq<Event>, i: nat, n: nat, w: Id)
    requires FollowsMoves(events) && i <= n <= |events|
    requires StateAt(events, i, w).Some? && Terminal(StateAt(events, i, w).value.state)
    ensures StateAt(events, n, w) == StateAt(events, i, w)
  {
    if i < n {
      TerminalStays(events, i, n - 1, w);
      assert MoveAt(events, n - 1);
    }
  }

  /** A completed item carries the digest its result was saved with. */
  lemma AcceptedCompletion(db: Db, i: nat)
    requires Accepts(db) && i < |db.events| && db.events[i].state == Completed
    ensures Before(db.events, i).Some?
    ensures Before(db.events, i).value.state == ResultSaved && Before(db.events, i).value.result == db.events[i].result
  {
    hide EvidenceOk, AttemptOk, ReservationOk, WithinBound, AttemptsOk, StepTo;
    StepAt(db, i, |db.events|);
  }

  /** All events of one item that carry an attempt carry the same attempt and request. */
  lemma AcceptedSingleAttempt(db: Db, i: nat, j: nat)
    requires Accepts(db) && i < |db.events| && j < |db.events| && db.events[i].work == db.events[j].work
    requires db.events[i].attempt.Some? && db.events[j].attempt.Some?
    ensures db.events[i].attempt == db.events[j].attempt && db.events[i].request == db.events[j].request
  {
    StepAt(db, i, |db.events|);
    StepAt(db, j, |db.events|);
  }

  // ----- dependencies ---------------------------------------------------------------------

  predicate BeyondReservation(s: State) {
    s != Planned && s != Unavailable && s != Blocked
  }

  /** Whatever got beyond planning was reserved at some earlier event. */
  lemma {:induction false} WasReserved(events: seq<Event>, n: nat, w: Id) returns (r: nat)
    requires FollowsMoves(events) && n <= |events|
    requires StateAt(events, n, w).Some? && BeyondReservation(StateAt(events, n, w).value.state)
    ensures r < n && events[r].work == w && events[r].state == Reserved
  {
    if events[n - 1].work == w {
      assert MoveAt(events, n - 1);
      if events[n - 1].state == Reserved {
        r := n - 1;
      } else {
        r := WasReserved(events, n - 1, w);
      }
    } else {
      r := WasReserved(events, n - 1, w);
    }
  }

  lemma DirectDepsCompleted(db: Db, i: nat, d: Id)
    requires Accepts(db) && i < |db.events| && db.events[i].state == Reserved
    requires d in DepSet(db.plan, db.events[i].work)
    ensures StateAt(db.events, i, d).Some? && StateAt(db.events, i, d).value.state == Completed
  {
    StepAt(db, i, |db.events|);
    LatestIsState(db, i);
    assert Previous(Pass(db, i), d) == StateAt(db.events, i, d);
  }

  /** Whenever an item is reserved, everything it depends on, directly or not, is already completed. */
  lemma {:induction false} TransitiveDepsCompleted(db: Db, i: nat, walk: seq<Id>)
    requires Accepts(db) && i < |db.events| && db.events[i].state == Reserved
    requires 2 <= |walk| && IsWalk(db.plan, walk) && walk[0] == db.events[i].work
    ensures StateAt(db.events, i, walk[|walk| - 1]).Some?
    ensures StateAt(db.events, i, walk[|walk| - 1]).value.state == Completed
    decreases |walk|
  {
    hide StateAt, Accepts, DepSet;
    assert EdgeAt(db.plan, walk, 0);
    DirectDepsCompleted(db, i, walk[1]);
    if |walk| > 2 {
      AcceptedFollowsMoves(db);
      var r := WasReserved(db.events, i, walk[1]);
      var rest := walk[1..];
      forall k: nat | k + 1 < |rest| ensures EdgeAt(db.plan, rest, k) {
        assert EdgeAt(db.plan, walk, k + 1);
      }
      TransitiveDepsCompleted(db, r, rest);
      TerminalStays(db.events, r, i, walk[|walk| - 1]);
    }
  }

  // ----- evidence for leaving `uncertain` -----------------------------------------------------

  predicate RetryEvent(events: seq<Event>, i: nat, a: Id)
    requires i < |events|
  {
    events[i].attempt == Some(a) && IsRetryMove(Before(events, i), events[i])
  }

  predicate ReceiptEvent(events: seq<Event>, i: nat, a: Id)
    requires i < |events|
  {
    events[i].attempt == Some(a) && IsReceiptMove(Before(events, i), events[i])
  }

  lemma EvidenceHere(db: Db, n: nat, a: Id)
    requires 0 < n && Audited(db, n)
    ensures Audited(db, n - 1)
    ensures a in Pass(db, n).retried <==> a in Pass(db, n - 1).retried || RetryEvent(db.events, n - 1, a)
    ensures a in Pass(db, n).recovered <==> a in Pass(db, n - 1).recovered || ReceiptEvent(db.events, n - 1, a)
  {
    hide StateAt, Audited, MoveOk, AttemptOk, ReservationOk, CompletionOk, WithinBound;
    StepAt(db, n - 1, n);
  }

  /** The set `retried` names exactly the attempts with a retry event. */
  lemma {:induction false} RetriedSet(db: Db, n: nat, a: Id) returns (i: nat)
    requires Audited(db, n)
    ensures a in Pass(db, n).retried ==> i < n && RetryEvent(db.events, i, a)
    ensures a !in Pass(db, n).retried ==> forall j: nat | j < n :: !RetryEvent(db.events, j, a)
  {
    hide StepOk, StepTo, RetryEvent, ReceiptEvent;
    i := 0;
    if n > 0 {
      EvidenceHere(db, n, a);
      i := RetriedSet(db, n - 1, a);
      if RetryEvent(db.events, n - 1, a) {
        i := n - 1;
      }
    }
  }

  /** The set `recovered` names exactly the attempts with a receipt event. */
  lemma {:induction false} RecoveredSet(db: Db, n: nat, a: Id) returns (i: nat)
    requires Audited(db, n)
    ensures a in Pass(db, n).recovered ==> i < n && ReceiptEvent(db.events, i, a)
    ensures a !in Pass(db, n).recovered ==> forall j: nat | j < n :: !ReceiptEvent(db.events, j, a)
  {
    hide StepOk, StepTo, RetryEvent, ReceiptEvent;
    i := 0;
    if n > 0 {
      EvidenceHere(db, n, a);
      i := RecoveredSet(db, n - 1, a);
      if ReceiptEvent(db.events, n - 1, a) {
        i := n - 1;
      }
    }
  }

  /** Every retry row belongs to exactly one retry event, which leaves the recorded uncertain event. */
  lemma RetryEvidence(db: Db)
    requires RowsValid(db.events) && Accepts(db)
    ensures forall i: nat, a | i < |db.events| && RetryEvent(db.events, i, a) ::
        a in RetryRows(db) && RetryRows(db)[a].uncertainEvent == Before(db.events, i).value.id
    ensures forall a | a in RetryRows(db) :: exists i: nat :: i < |db.events| && RetryEvent(db.events, i, a)
    ensures forall i: nat, j: nat, a | i < j < |db.events| ::
      !(RetryEvent(db.events, i, a) && RetryEvent(db.events, j, a))
  {
    forall a | a in RetryRows(db) ensures exists i: nat :: i < |db.events| && RetryEvent(db.events, i, a) {
      var i := RetriedSet(db, |db.events|, a);
    }
    forall i: nat, a | i < |db.events| && RetryEvent(db.events, i, a)
      ensures a in RetryRows(db) && RetryRows(db)[a].uncertainEvent == Before(db.events, i).value.id
    {
      StepAt(db, i, |db.events|);
    }
    forall i: nat, j: nat, a | i < j < |db.events|
      ensures !(RetryEvent(db.events, i, a) && RetryEvent(db.events, j, a))
    {
      if RetryEvent(db.events, i, a) {
        NoSecondRetry(db, i, j, a);
      }
    }
  }

  lemma NoSecondRetry(db: Db, i: nat, j: nat, a: Id)
    requires RowsValid(db.events) && Accepts(db) && i < j < |db.events|
    requires RetryEvent(db.events, i, a)
    ensures !RetryEvent(db.events, j, a)
  {
    StepAt(db, i, |db.events|);
    StepAt(db, j, |db.events|);
    LastAtLeast(db.events, i, j);
  }

  /** After event `i` its item's state row is never older than `i`. */
  lemma {:induction false} LastAtLeast(events: seq<Event>, i: nat, n: nat)
    requires i < n <= |events|
    ensures Last(events, n, events[i].work).Some? && Last(events, n, events[i].work).value >= i
  {
    if n - 1 != i {
      LastAtLeast(events, i, n - 1);
    }
  }

  /** Every reconciliation row belongs to exactly one exit from `uncertain`, saving the recorded digest. */
  lemma ReceiptEvidence(db: Db)
    requires RowsValid(db.events) && Accepts(db)
    ensures forall i: nat, a | i < |db.events| && ReceiptEvent(db.events, i, a) ::
        && a in RecoveryRows(db) && db.events[i].state == ResultSaved
        && db.events[i].result == Some(RecoveryRows(db)[a].result)
    ensures forall a | a in RecoveryRows(db) :: exists i: nat :: i < |db.events| && ReceiptEvent(db.events, i, a)
    ensures forall i: nat, j: nat, a | i < j < |db.events| ::
      !(ReceiptEvent(db.events, i, a) && ReceiptEvent(db.events, j, a))
  {
    forall a | a in RecoveryRows(db) ensures exists i: nat :: i < |db.events| && ReceiptEvent(db.events, i, a) {
      var i := RecoveredSet(db, |db.events|, a);
    }
    forall i: nat, a | i < |db.events| && ReceiptEvent(db.events, i, a)
      ensures a in RecoveryRows(db) && db.events[i].state == ResultSaved
      ensures db.events[i].result == Some(RecoveryRows(db)[a].result)
    {
      ReceiptSaves(db, i, a);
    }
    forall i: nat, j: nat, a | i < j < |db.events|
      ensures !(ReceiptEvent(db.events, i, a) && ReceiptEvent(db.events, j, a))
    {
      if ReceiptEvent(db.events, i, a) {
        NoSecondReceipt(db, i, j, a);
      }
    }
  }

  lemma ReceiptSaves(db: Db, i: nat, a: Id)
    requires Accepts(db) && i < |db.events| && ReceiptEvent(db.events, i, a)
    ensures a in RecoveryRows(db) && db.events[i].result == Some(RecoveryRows(db)[a].result)
    ensures db.events[i].state == ResultSaved
    ensures a in db.attempts && db.events[i].work == db.attempts[a].work
  {
    hide AuditTo, ReservationOk, CompletionOk, StateAt;
    StepAt(db, i, |db.events|);
  }

  lemma NoSecondReceipt(db: Db, i: nat, j: nat, a: Id)
    requires Accepts(db) && i < j < |db.events|
    requires ReceiptEvent(db.events, i, a)
    ensures !ReceiptEvent(db.events, j, a)
  {
    hide StateAt, Audited, AuditTo;
    ReceiptSaves(db, i, a);
    AcceptedFollowsMoves(db);
    StateStep(db.events, i + 1, db.events[i].work);
    SavedStaysSaved(db.events, i + 1, j, db.events[i].work);
    if ReceiptEvent(db.events, j, a) {
      ReceiptSaves(db, j, a);
      assert false;
    }
  }

  /** After its result is saved an item can only be completed. */
  lemma {:induction false} SavedStaysSaved(events: seq<Event>, i: nat, n: nat, w: Id)
    requires FollowsMoves(events) && i <= n <= |events|
    requires StateAt(events, i, w).Some? && StateAt(events, i, w).value.state in {ResultSaved, Completed}
    ensures StateAt(events, n, w).Some? && StateAt(events, n, w).value.state in {ResultSaved, Completed}
  {
    if i < n {
      SavedStaysSaved(events, i, n - 1, w);
      if events[n - 1].work == w {
        assert MoveAt(events, n - 1);
      }
    }
  }

  // ----- how often an attempt can be dispatched --------------------------------------------------

  /** How many of the first `n` events put `w` into state `s`. */
  function Count(events: seq<Event>, n: nat, w: Id, s: State): nat
    requires n <= |events|
  {
    if n == 0 then 0
    else Count(events, n - 1, w, s) + if events[n - 1].work == w && events[n - 1].state == s then 1 else 0
  }

  function StateIs(events: seq<Event>, n: nat, w: Id, s: State): nat
    requires n <= |events|
  {
    if StateAt(events, n, w).Some? && StateAt(events, n, w).value.state == s then 1 else 0
  }

  /** Each reservation leads to one dispatch, except while the item is still reserved. */
  lemma {:induction false} DispatchesAreReservations(events: seq<Event>, n: nat, w: Id)
    requires FollowsMoves(events) && n <= |events|
    ensures Count(events, n, w, InFlight) + StateIs(events, n, w, Reserved) == Count(events, n, w, Reserved)
  {
    if n > 0 {
      DispatchesAreReservations(events, n - 1, w);
      assert MoveAt(events, n - 1);
    }
  }

  /** The item was granted its one retry. */
  predicate Retried(db: Db, w: Id, retried: set<Id>) {
    exists a :: a in retried && a in db.attempts && db.attempts[a].work == w
  }

  /** A retried attempt's recorded uncertain event lies behind the item's present state row. */
  lemma {:induction false} RetryIsPast(db: Db, n: nat, a: Id)
    requires RowsValid(db.events) && AttemptsOk(db) && Audited(db, n) && a in Pass(db, n).retried
    ensures a in db.attempts && a in RetryRows(db)
    ensures StateAt(db.events, n, db.attempts[a].work).Some?
    ensures StateAt(db.events, n, db.attempts[a].work).value.id > RetryRows(db)[a].uncertainEvent
  {
    StepAt(db, n - 1, n);
    var e := db.events[n - 1];
    if a in Pass(db, n - 1).retried {
      RetryIsPast(db, n - 1, a);
    }
  }

  function One(b: bool): nat {
    if b then 1 else 0
  }

  lemma NothingReserved(db: Db, w: Id)
    ensures Pass(db, 0) == START && Reservations(db, w, START) == 0 && !Retried(db, w, START.retried)
  {
  }

  /** An item is reserved once, and once more exactly when its attempt was granted the retry. */
  lemma {:induction false} ReservationCount(db: Db, n: nat, w: Id)
    requires RowsValid(db.events) && AttemptsOk(db) && Audited(db, n)
    ensures Count(db.events, n, w, Reserved) == Reservations(db, w, Pass(db, n))
    ensures Retried(db, w, Pass(db, n).retried) ==> w in Pass(db, n).reserved
  {
    hide StepOk, StepTo, Reservations, Retried, AttemptsOk, RowsValid, AuditTo;
    NothingReserved(db, w);
    if n > 0 {
      PassStep(db, n);
      ReservationCount(db, n - 1, w);
      ReservationStep(db, n - 1, db.events[n - 1], w);
    }
  }

  function Reservations(db: Db, w: Id, st: Audit): nat {
    One(w in st.reserved) + One(Retried(db, w, st.retried))
  }

  lemma ReservationStep(db: Db, n: nat, e: Event, w: Id)
    requires RowsValid(db.events) && AttemptsOk(db) && Audited(db, n)
    requires var st := Pass(db, n); StepOk(db, st, e) && (Retried(db, w, st.retried) ==> w in st.reserved)
    ensures var st, st' := Pass(db, n), StepTo(Pass(db, n), e);
      && Reservations(db, w, st') == Reservations(db, w, st) + One(e.work == w && e.state == Reserved)
      && (Retried(db, w, st'.retried) ==> w in st'.reserved)
  {
    var st := Pass(db, n);
    if e.work == w && IsRetryMove(Previous(st, w), e) {
      FirstRetry(db, n, e);
    } else {
      SameRetried(db, w, st, e);
    }
  }

  /** A retry move finds its item reserved before and not yet retried. */
  lemma FirstRetry(db: Db, n: nat, e: Event)
    requires RowsValid(db.events) && AttemptsOk(db) && Audited(db, n)
    requires StepOk(db, Pass(db, n), e) && IsRetryMove(Previous(Pass(db, n), e.work), e)
    ensures e.work in Pass(db, n).reserved && !Retried(db, e.work, Pass(db, n).retried)
    ensures Retried(db, e.work, StepTo(Pass(db, n), e).retried)
  {
    LatestIsState(db, n);
    WasReservedInPass(db, n, e.work);
    if Retried(db, e.work, Pass(db, n).retried) {
      var b :| b in Pass(db, n).retried && b in db.attempts && db.attempts[b].work == e.work;
      assert b == e.attempt.value;
      RetryIsPast(db, n, b);
    }
    assert e.attempt.value in StepTo(Pass(db, n), e).retried;
  }

  lemma SameRetried(db: Db, w: Id, st: Audit, e: Event)
    requires StepOk(db, st, e) && !(e.work == w && IsRetryMove(Previous(st, e.work), e))
    ensures Retried(db, w, StepTo(st, e).retried) == Retried(db, w, st.retried)
  {
    if Retried(db, w, StepTo(st, e).retried) {
      var a :| a in StepTo(st, e).retried && a in db.attempts && db.attempts[a].work == w;
      assert a in st.retried;
    }
  }

  /** Only a reservation takes an item into the states from `reserved` on. */
  lemma BeyondBefore(prev: Option<Event>, e: Event)
    requires MoveOk(prev, e) && BeyondReservation(e.state) && e.state != Reserved
    ensures prev.Some? && BeyondReservation(prev.value.state)
  {
  }

  lemma {:induction false} WasReservedInPass(db: Db, n: nat, w: Id)
    requires Audited(db, n)
    requires StateAt(db.events, n, w).Some? && BeyondReservation(StateAt(db.events, n, w).value.state)
    ensures w in Pass(db, n).reserved
  {
    hide StateAt, AuditTo, EvidenceOk, CompletionOk, AttemptOk, ReservationOk, MoveOk, Previous, IsReceiptMove,
      IsRetryMove;
    StateStep(db.events, n, w);
    StepAt(db, n - 1, n);
    if db.events[n - 1].work != w || db.events[n - 1].state != Reserved {
      if db.events[n - 1].work == w {
        BeyondBefore(StateAt(db.events, n - 1, w), db.events[n - 1]);
      }
      WasReservedInPass(db, n - 1, w);
    }
  }

  /** An accepted history dispatches each attempt at most once, or twice when it holds a retry row. */
  lemma AcceptedDispatchBound(db: Db, a: Id)
    requires RowsValid(db.events) && Accepts(db) && a in db.attempts
    ensures Count(db.events, |db.events|, db.attempts[a].work, InFlight)
        == 1 + One(a in RetryRows(db)) - StateIs(db.events, |db.events|, db.attempts[a].work, Reserved)
  {
    var n, w := |db.events|, db.attempts[a].work;
    AcceptedFollowsMoves(db);
    DispatchesAreReservations(db.events, n, w);
    ReservationCount(db, n, w);
    assert w in AttemptWorks(db);
    assert Retried(db, w, Pass(db, n).retried) == (a in RetryRows(db)) by {
      if Retried(db, w, Pass(db, n).retried) {
        var b :| b in Pass(db, n).retried && b in db.attempts && db.attempts[b].work == w;
        assert b == a;
      }
    }
  }

  // ----- the bound on the number of events --------------------------------------------------------

  function Rank(e: Option<Event>): nat {
    match e
    case None => 0
    case Some(e) =>
      match e.state
      case Planned => 1
      case Reserved => 2
      case Unavailable => 2
      case Blocked => 2
      case InFlight => 3
      case Uncertain => 4
      case Failed => 4
      case Limited => 4
      case ResultSaved => 5
      case Completed => 6
  }

  function RankSum(plan: seq<Row>, st: Audit): nat {
    if plan == [] then 0
    else RankSum(plan[..|plan| - 1], st) + Rank(Previous(st, plan[|plan| - 1].work))
  }

  lemma {:induction false} RankSumBound(plan: seq<Row>, st: Audit)
    ensures RankSum(plan, st) <= 6 * |plan|
  {
    if plan != [] {
      RankSumBound(plan[..|plan| - 1], st);
    }
  }

  lemma {:induction false} RankSumElsewhere(plan: seq<Row>, st: Audit, e: Event)
    requires e.work !in Works(plan)
    ensures RankSum(plan, StepTo(st, e)) == RankSum(plan, st)
  {
    if plan != [] {
      WorksSnoc(plan[..|plan| - 1], plan[|plan| - 1]);
      assert plan == plan[..|plan| - 1] + [plan[|plan| - 1]];
      RankSumElsewhere(plan[..|plan| - 1], st, e);
    }
  }

  lemma {:induction false} RankSumStep(plan: seq<Row>, st: Audit, e: Event)
    requires UniqueWorks(plan) && e.work in Works(plan)
    ensures RankSum(plan, StepTo(st, e)) == RankSum(plan, st) + Rank(Some(e)) - Rank(Previous(st, e.work))
  {
    var front, last := plan[..|plan| - 1], plan[|plan| - 1];
    WorksSnoc(front, last);
    assert plan == front + [last];
    if last.work == e.work {
      assert e.work !in Works(front);
      RankSumElsewhere(front, st, e);
    } else {
      RankSumStep(front, st, e);
    }
  }

  /** All checks of one step except the count bound. */
  predicate StepOkButCount(db: Db, st: Audit, e: Event) {
    var prev := Previous(st, e.work);
    && e.work in Works(db.plan)
    && MoveOk(prev, e)
    && EvidenceOk(db, prev, e)
    && AttemptOk(db, e)
    && ReservationOk(db, st, prev, e)
    && CompletionOk(prev, e)
  }

  lemma StepOkParts(db: Db, st: Audit, e: Event)
    requires StepOk(db, st, e)
    ensures StepOkButCount(db, st, e)
  {
  }

  /** Progress pays for every event: each item's rank, and three more events per retry. */
  lemma {:induction false} CountPaidFor(db: Db, n: nat)
    requires RowsValid(db.events) && AttemptsOk(db) && UniqueWorks(db.plan) && Audited(db, n)
    ensures n <= RankSum(db.plan, Pass(db, n)) + 3 * |Pass(db, n).retried|
    ensures Pass(db, n).retried <= RetryRows(db).Keys
  {
    hide StepOk, StepTo, StepOkButCount, RankSum, AttemptsOk, UniqueWorks, RowsValid;
    if n > 0 {
      PassStep(db, n);
      CountPaidFor(db, n - 1);
      StepOkParts(db, Pass(db, n - 1), db.events[n - 1]);
      NextStepPays(db, n - 1, db.events[n - 1]);
    }
  }

  /** Every move but the retry climbs. */
  lemma MovesClimb(prev: Option<Event>, e: Event)
    requires MoveOk(prev, e)
    ensures IsRetryMove(prev, e) ==> Rank(Some(e)) + 2 == Rank(prev)
    ensures !IsRetryMove(prev, e) ==> Rank(Some(e)) > Rank(prev)
  {
  }

  /** A retry move names an attempt not retried before. */
  lemma RetryIsNew(db: Db, n: nat, e: Event)
    requires RowsValid(db.events) && AttemptsOk(db) && Audited(db, n)
    requires StepOkButCount(db, Pass(db, n), e) && IsRetryMove(Previous(Pass(db, n), e.work), e)
    ensures e.attempt.Some? && e.attempt.value in RetryRows(db) && e.attempt.value !in Pass(db, n).retried
  {
    hide ReservationOk, CompletionOk, MoveOk, RowsValid;
    LatestIsState(db, n);
    if e.attempt.value in Pass(db, n).retried {
      RetryIsPast(db, n, e.attempt.value);
    }
  }

  lemma NextStepPays(db: Db, n: nat, e: Event)
    requires RowsValid(db.events) && AttemptsOk(db) && UniqueWorks(db.plan) && Audited(db, n)
    requires StepOkButCount(db, Pass(db, n), e)
    requires Pass(db, n).retried <= RetryRows(db).Keys
    ensures var st, st' := Pass(db, n), StepTo(Pass(db, n), e);
      && RankSum(db.plan, st') + 3 * |st'.retried| > RankSum(db.plan, st) + 3 * |st.retried|
      && st'.retried <= RetryRows(db).Keys
  {
    hide RankSum, Rank, RowsValid, AttemptsOk, Pass, ReservationOk, CompletionOk, EvidenceOk;
    var st := Pass(db, n);
    RankSumStep(db.plan, st, e);
    MovesClimb(Previous(st, e.work), e);
    if IsRetryMove(Previous(st, e.work), e) {
      RetryIsNew(db, n, e);
      assert StepTo(st, e).retried == st.retried + {e.attempt.value};
    } else {
      assert StepTo(st, e).retried == st.retried;
    }
  }

  /** The verifier's bound on the number of events never rejects what its other checks admit. */
  lemma CountBoundIsImplied(db: Db, n: nat, e: Event)
    requires RowsValid(db.events) && AttemptsOk(db) && UniqueWorks(db.plan) && Audited(db, n)
    requires StepOkButCount(db, Pass(db, n), e)
    ensures StepOk(db, Pass(db, n), e)
  {
    CountPaidFor(db, n);
    NextStepPays(db, n, e);
    LatestIsState(db, n);
    var st' := StepTo(Pass(db, n), e);
    RankSumBound(db.plan, st');
    SubsetSize(st'.retried, RetryRows(db).Keys);
  }
}
