/**
 The synthetic driver with pauses and crashes. With an adapter that is a function of
 its request, the final state of every item is fixed in advance by the plan and by the
 calls that a crash cut off; whatever is done in between, a drive that runs to its end
 arrives exactly there.
 */
module SyntheticDrive {
  import opened Wrappers
  import opened Plans
  import opened LedgerTables
  import opened LedgerOps
  import opened LedgerSoundness
  import opened LedgerRuns

  // ----- what a run is given ---------------------------------------------------------------

  datatype Reply = Value(result: Digest) | Limits | Fails | Malformed

  /** `missing` gives the skip code of every item without input; `request` the digest of the request built
      from a row and its parents' result digests; `adapter` the reply to a request. */
  datatype Config = Config(
    plan: seq<Row>, missing: map<Id, Code>, request: (Row, seq<Digest>) -> Digest, adapter: Digest -> Reply)

  ghost predicate ValidConfig(cfg: Config) {
    ValidPlan(cfg.plan) && DepsFirst(cfg.plan) && forall w | w in cfg.missing :: IsSkipCode(cfg.missing[w])
  }

  // ----- where every run must end --------------------------------------------------------

  datatype Fate =
    | Untried(state: State, code: Code)
    | Succeeds(request: Digest, result: Digest)
    | Ends(request: Digest, state: State, code: Code)
    | Lost(request: Digest)

  /** Where the dependency `d` of row `k` stands. */
  function Earlier(cfg: Config, k: nat, d: Id): (j: nat)
    requires DepsFirst(cfg.plan) && k < |cfg.plan| && d in cfg.plan[k].deps
    ensures j < k && cfg.plan[j].work == d
  {
    RowIndex(cfg.plan[..k], d)
  }

  predicate Hindered(cfg: Config, lost: set<Id>, k: nat)
    requires DepsFirst(cfg.plan) && k < |cfg.plan|
    decreases k, 0
  {
    exists d | d in cfg.plan[k].deps :: !FateOf(cfg, lost, Earlier(cfg, k, d)).Succeeds?
  }

  function ParentDigests(cfg: Config, lost: set<Id>, k: nat): (digests: seq<Digest>)
    requires DepsFirst(cfg.plan) && k < |cfg.plan| && !Hindered(cfg, lost, k)
    ensures |digests| == |cfg.plan[k].deps|
    ensures forall i | 0 <= i < |digests| ::
      digests[i] == FateOf(cfg, lost, Earlier(cfg, k, cfg.plan[k].deps[i])).result
    decreases k, 1
  {
    seq(|cfg.plan[k].deps|, i requires 0 <= i < |cfg.plan[k].deps| =>
      FateOf(cfg, lost, Earlier(cfg, k, cfg.plan[k].deps[i])).result)
  }

  /** The final state of row `k`, from the plan and the interrupted calls alone. */
  function FateOf(cfg: Config, lost: set<Id>, k: nat): Fate
    requires DepsFirst(cfg.plan) && k < |cfg.plan|
    decreases k, 2
  {
    if cfg.plan[k].work in cfg.missing then Untried(Unavailable, cfg.missing[cfg.plan[k].work])
    else if Hindered(cfg, lost, k) then Untried(Blocked, Code.DependencyUnresolved)
    else
      var request := cfg.request(cfg.plan[k], ParentDigests(cfg, lost, k));
      if cfg.plan[k].work in lost then Lost(request)
      else
        match cfg.adapter(request)
        case Value(result) => Succeeds(request, result)
        case Limits => Ends(request, Limited, AdapterLimited)
        case Fails => Ends(request, Failed, AdapterFailed)
        case Malformed => Ends(request, Failed, InvalidAdapterOutput)
  }

  /** A state row on the way to its fate; only an interrupted call leaves its row in flight, or uncertain. */
  predicate Fits(fate: Fate, c: Event) {
    match c.state
    case Planned => !fate.Lost?
    case Reserved => (fate.Succeeds? || fate.Ends?) && c.request == Some(fate.request)
    case ResultSaved => fate.Succeeds? && c.request == Some(fate.request) && c.result == Some(fate.result)
    case Completed => fate.Succeeds? && c.request == Some(fate.request) && c.result == Some(fate.result)
    case Failed => fate.Ends? && fate.state == Failed && c.request == Some(fate.request) && c.code == Some(fate.code)
    case Limited => fate.Ends? && fate.state == Limited && c.request == Some(fate.request) && c.code == Some(fate.code)
    case Unavailable => fate.Untried? && fate.state == Unavailable && c.code == Some(fate.code)
    case Blocked => fate.Untried? && fate.state == Blocked && c.code == Some(fate.code)
    case InFlight => fate.Lost? && c.request == Some(fate.request)
    case Uncertain => fate.Lost? && c.request == Some(fate.request)
  }

  predicate FitsRow(cfg: Config, lost: set<Id>, db: Db, k: nat)
    requires DepsFirst(cfg.plan) && k < |cfg.plan|
  {
    Current(db, cfg.plan[k].work).Some? && Fits(FateOf(cfg, lost, k), Current(db, cfg.plan[k].work).value)
  }

  /** An interrupted item had its turn: it lacks nothing and was not stuck. */
  predicate Lawful(cfg: Config, lost: set<Id>)
    requires DepsFirst(cfg.plan)
  {
    forall k | 0 <= k < |cfg.plan| :: cfg.plan[k].work in lost ==> FateOf(cfg, lost, k).Lost?
  }

  ghost predicate OnTrack(cfg: Config, lost: set<Id>, db: Db)
    requires DepsFirst(cfg.plan)
  {
    && Healthy(db) && db.plan == cfg.plan && Lawful(cfg, lost)
    && forall k | 0 <= k < |cfg.plan| :: FitsRow(cfg, lost, db, k)
  }

  predicate Settled(cfg: Config, db: Db, k: nat)
    requires k < |cfg.plan|
  {
    && Current(db, cfg.plan[k].work).Some?
    && (Terminal(Current(db, cfg.plan[k].work).value.state) || InState(db, cfg.plan[k].work, Uncertain))
  }

  predicate AllSettled(cfg: Config, db: Db) {
    forall k | 0 <= k < |cfg.plan| :: Settled(cfg, db, k)
  }

  /** The row is at its fate, in state and in every column that does not name an attempt or an event. */
  predicate AtFate(fate: Fate, c: Event) {
    match fate
    case Untried(state, code) => c.state == state && c.request.None? && c.result.None? && c.code == Some(code)
    case Succeeds(request, result) =>
      c.state == Completed && c.request == Some(request) && c.result == Some(result) && c.code.None?
    case Ends(request, state, code) =>
      c.state == state && c.request == Some(request) && c.result.None? && c.code == Some(code)
    case Lost(request) =>
      c.state == Uncertain && c.request == Some(request) && c.result.None? && c.code == Some(Interrupted)
  }

  predicate AllAtFate(cfg: Config, lost: set<Id>, db: Db)
    requires DepsFirst(cfg.plan)
  {
    forall k | 0 <= k < |cfg.plan| ::
      Current(db, cfg.plan[k].work).Some? && AtFate(FateOf(cfg, lost, k), Current(db, cfg.plan[k].work).value)
  }

  /** However a run got there, once every item is settled each is where the plan and the interrupted calls alone say. */
  lemma SettledIsFate(cfg: Config, lost: set<Id>, db: Db)
    requires DepsFirst(cfg.plan) && OnTrack(cfg, lost, db) && AllSettled(cfg, db)
    ensures AllAtFate(cfg, lost, db) && LostExactly(cfg, lost, db)
  {
    hide Sane, FateOf;
    forall k | 0 <= k < |cfg.plan|
      ensures Current(db, cfg.plan[k].work).Some? && AtFate(FateOf(cfg, lost, k), Current(db, cfg.plan[k].work).value)
    {
      assert FitsRow(cfg, lost, db, k) && Settled(cfg, db, k);
      RowShape(db, cfg.plan[k].work);
    }
    LostAreUncertain(cfg, lost, db);
  }

  lemma LostAreUncertain(cfg: Config, lost: set<Id>, db: Db)
    requires DepsFirst(cfg.plan) && OnTrack(cfg, lost, db) && AllSettled(cfg, db)
    ensures LostExactly(cfg, lost, db)
  {
    hide Sane;
    forall k | 0 <= k < |cfg.plan|
      ensures cfg.plan[k].work in lost <==> InState(db, cfg.plan[k].work, Uncertain)
    {
      assert FitsRow(cfg, lost, db, k) && Settled(cfg, db, k);
    }
  }

  lemma RowShape(db: Db, w: Id)
    requires Healthy(db) && Current(db, w).Some?
    ensures EventRowOk(Current(db, w).value)
  {
    HealthySays(db);
  }

  // ----- the request of an item -----------------------------------------------------------

  function Results(db: Db, deps: seq<Id>): (digests: seq<Digest>)
    ensures |digests| == |deps| && forall i | 0 <= i < |deps| :: digests[i] == ResultDigest(db, deps[i])
  {
    seq(|deps|, i requires 0 <= i < |deps| => ResultDigest(db, deps[i]))
  }

  /** The request as the driver builds it, from the ledger's present rows. */
  function RequestNow(cfg: Config, db: Db, k: nat): Digest
    requires k < |cfg.plan|
  {
    cfg.request(cfg.plan[k], Results(db, cfg.plan[k].deps))
  }

  /** The stored request of row `k` is the one built again now, and its saved result answers it. */
  predicate RowAgrees(cfg: Config, db: Db, k: nat)
    requires k < |cfg.plan|
  {
    match Current(db, cfg.plan[k].work)
    case None => true
    case Some(c) =>
      c.request.Some? ==>
        && (forall d | d in cfg.plan[k].deps :: InState(db, d, Completed))
        && c.request == Some(RequestNow(cfg, db, k))
        && (c.result.Some? ==> cfg.adapter(c.request.value) == Value(c.result.value))
  }

  predicate ArtifactsAgree(cfg: Config, db: Db) {
    forall k | 0 <= k < |cfg.plan| :: RowAgrees(cfg, db, k)
  }

  /** The check before every resume passes on every run on track. */
  lemma OnTrackAgrees(cfg: Config, lost: set<Id>, db: Db)
    requires ValidConfig(cfg) && OnTrack(cfg, lost, db)
    ensures ArtifactsAgree(cfg, db)
  {
    hide Sane, FateOf, Hindered;
    forall k | 0 <= k < |cfg.plan| ensures RowAgrees(cfg, db, k) {
      StoredRequest(cfg, lost, db, k);
    }
  }

  lemma CompletedIsSuccess(cfg: Config, lost: set<Id>, db: Db, k: nat, d: Id)
    requires DepsFirst(cfg.plan) && OnTrack(cfg, lost, db) && k < |cfg.plan| && d in cfg.plan[k].deps
    ensures InState(db, d, Completed) ==>
      && FateOf(cfg, lost, Earlier(cfg, k, d)).Succeeds?
      && ResultDigest(db, d) == FateOf(cfg, lost, Earlier(cfg, k, d)).result
    ensures (Settled(cfg, db, Earlier(cfg, k, d)) && FateOf(cfg, lost, Earlier(cfg, k, d)).Succeeds?) ==>
      InState(db, d, Completed)
  {
    hide Sane, FateOf;
    assert FitsRow(cfg, lost, db, Earlier(cfg, k, d));
  }

  /** Once all dependencies are completed, the request built now is the one the plan foresees. */
  lemma RequestIsForeseen(cfg: Config, lost: set<Id>, db: Db, k: nat)
    requires DepsFirst(cfg.plan) && OnTrack(cfg, lost, db) && k < |cfg.plan|
    requires forall d | d in cfg.plan[k].deps :: InState(db, d, Completed)
    ensures !Hindered(cfg, lost, k) && RequestNow(cfg, db, k) == cfg.request(cfg.plan[k], ParentDigests(cfg, lost, k))
  {
    hide OnTrack, FateOf, InState, ResultDigest;
    forall d | d in cfg.plan[k].deps
      ensures FateOf(cfg, lost, Earlier(cfg, k, d)).Succeeds?
      ensures ResultDigest(db, d) == FateOf(cfg, lost, Earlier(cfg, k, d)).result
    {
      CompletedIsSuccess(cfg, lost, db, k, d);
    }
    var deps := cfg.plan[k].deps;
    assert ParentDigests(cfg, lost, k) == Results(db, deps) by {
      forall i | 0 <= i < |deps| ensures ParentDigests(cfg, lost, k)[i] == ResultDigest(db, deps[i]) {
        assert deps[i] in deps;
      }
    }
  }

  /** With everything before it settled, an item's dependencies are completed exactly when it is not stuck. */
  lemma ReadyIsForeseen(cfg: Config, lost: set<Id>, db: Db, k: nat)
    requires DepsFirst(cfg.plan) && OnTrack(cfg, lost, db) && k < |cfg.plan|
    requires forall j | 0 <= j < k :: Settled(cfg, db, j)
    ensures (forall d | d in cfg.plan[k].deps :: InState(db, d, Completed)) <==> !Hindered(cfg, lost, k)
  {
    hide OnTrack, FateOf, InState, ResultDigest;
    forall d | d in cfg.plan[k].deps
      ensures InState(db, d, Completed) <==> FateOf(cfg, lost, Earlier(cfg, k, d)).Succeeds?
    {
      CompletedIsSuccess(cfg, lost, db, k, d);
    }
  }

  lemma PlanDeps(cfg: Config, db: Db, k: nat)
    requires ValidConfig(cfg) && db.plan == cfg.plan && k < |cfg.plan|
    ensures DepsOf(db.plan, cfg.plan[k].work) == cfg.plan[k].deps
  {
    DepsOfRow(cfg.plan, k);
  }

  // ----- an interrupted call ---------------------------------------------------------------

  /** What one more interrupted item can do to a fate: nothing, make it that item's own loss, or get it blocked by a
      dependency that would have succeeded. */
  predicate Spreads(cfg: Config, lost: set<Id>, w: Id, k: nat)
    requires DepsFirst(cfg.plan) && k < |cfg.plan|
  {
    var f, g := FateOf(cfg, lost, k), FateOf(cfg, lost + {w}, k);
    || f == g
    || (cfg.plan[k].work == w && !f.Untried? && g == Lost(f.request))
    || (!f.Untried? && g == Untried(Blocked, Code.DependencyUnresolved) && exists d | d in cfg.plan[k].deps ::
          FateOf(cfg, lost, Earlier(cfg, k, d)).Succeeds? && !FateOf(cfg, lost + {w}, Earlier(cfg, k, d)).Succeeds?)
  }

  lemma {:induction false} LossSpreads(cfg: Config, lost: set<Id>, w: Id, k: nat)
    requires DepsFirst(cfg.plan) && k < |cfg.plan|
    ensures Spreads(cfg, lost, w, k)
  {
    var more := lost + {w};
    forall d | d in cfg.plan[k].deps
      ensures var f, g := FateOf(cfg, lost, Earlier(cfg, k, d)), FateOf(cfg, more, Earlier(cfg, k, d));
        g.Succeeds? ==> f == g
    {
      LossSpreads(cfg, lost, w, Earlier(cfg, k, d));
    }
    if !Hindered(cfg, more, k) {
      SameParents(cfg, lost, more, k);
    }
  }

  /** Equal fates of the dependencies make equal requests. */
  lemma SameParents(cfg: Config, lost: set<Id>, more: set<Id>, k: nat)
    requires DepsFirst(cfg.plan) && k < |cfg.plan| && !Hindered(cfg, more, k)
    requires forall d | d in cfg.plan[k].deps ::
      FateOf(cfg, lost, Earlier(cfg, k, d)) == FateOf(cfg, more, Earlier(cfg, k, d))
    ensures !Hindered(cfg, lost, k) && ParentDigests(cfg, lost, k) == ParentDigests(cfg, more, k)
  {
    hide FateOf;
  }

  /** An item with an attempt, other than the one now interrupted, is spared: its dependencies are completed. */
  lemma {:induction false} LossSpares(cfg: Config, lost: set<Id>, db: Db, k: nat, j: nat)
    requires ValidConfig(cfg) && OnTrackBut(cfg, lost, db, k) && k < |cfg.plan| && j < |cfg.plan| && j != k
    requires InState(db, cfg.plan[k].work, InFlight)
    requires Current(db, cfg.plan[j].work).Some? && BeyondReservation(Current(db, cfg.plan[j].work).value.state)
    ensures FateOf(cfg, lost + {cfg.plan[k].work}, j) == FateOf(cfg, lost, j)
  {
    hide Sane, FateOf;
    var w := cfg.plan[k].work;
    CompletedDeps(cfg, db, j);
    forall d | d in cfg.plan[j].deps
      ensures FateOf(cfg, lost + {w}, Earlier(cfg, j, d)) == FateOf(cfg, lost, Earlier(cfg, j, d))
    {
      assert InState(db, d, Completed) && cfg.plan[Earlier(cfg, j, d)].work == d;
      LossSpares(cfg, lost, db, k, Earlier(cfg, j, d));
    }
    LossSpreads(cfg, lost, w, j);
  }

  /** A call cut off: with its item counted as lost, the run is on track again in every row. */
  lemma InterruptedOnTrack(cfg: Config, lost: set<Id>, db: Db, k: nat)
    requires ValidConfig(cfg) && OnTrackBut(cfg, lost, db, k) && k < |cfg.plan|
    requires InState(db, cfg.plan[k].work, InFlight)
    requires var fate := FateOf(cfg, lost, k);
      !fate.Untried? && Current(db, cfg.plan[k].work).value.request == Some(fate.request)
    ensures OnTrack(cfg, lost + {cfg.plan[k].work}, db)
  {
    hide Sane, FateOf, ParentDigests, Hindered, Lawful;
    var more := lost + {cfg.plan[k].work};
    InterruptedIsLost(cfg, lost, db, k);
    forall j | 0 <= j < |cfg.plan| ensures FitsRow(cfg, more, db, j) {
      if j != k {
        OtherFits(cfg, lost, db, k, j);
      }
    }
    StillLawful(cfg, lost, db, k);
  }

  lemma InterruptedIsLost(cfg: Config, lost: set<Id>, db: Db, k: nat)
    requires ValidConfig(cfg) && OnTrackBut(cfg, lost, db, k) && k < |cfg.plan|
    requires InState(db, cfg.plan[k].work, InFlight) && !FateOf(cfg, lost, k).Untried?
    ensures FateOf(cfg, lost + {cfg.plan[k].work}, k) == Lost(FateOf(cfg, lost, k).request)
  {
    var w := cfg.plan[k].work;
    CompletedDeps(cfg, db, k);
    forall d | d in cfg.plan[k].deps
      ensures FateOf(cfg, lost + {w}, Earlier(cfg, k, d)) == FateOf(cfg, lost, Earlier(cfg, k, d))
    {
      assert InState(db, d, Completed) && cfg.plan[Earlier(cfg, k, d)].work == d;
      LossSpares(cfg, lost, db, k, Earlier(cfg, k, d));
    }
    FateRequest(cfg, lost, k);
    assert !Hindered(cfg, lost + {w}, k);
    SameParents(cfg, lost, lost + {w}, k);
  }

  lemma OtherFits(cfg: Config, lost: set<Id>, db: Db, k: nat, j: nat)
    requires ValidConfig(cfg) && OnTrackBut(cfg, lost, db, k) && k < |cfg.plan| && j < |cfg.plan| && j != k
    requires InState(db, cfg.plan[k].work, InFlight)
    ensures FitsRow(cfg, lost + {cfg.plan[k].work}, db, j)
  {
    hide Sane, FateOf, ParentDigests, Hindered;
    assert FitsRow(cfg, lost, db, j);
    if BeyondReservation(Current(db, cfg.plan[j].work).value.state) {
      LossSpares(cfg, lost, db, k, j);
    } else {
      LossSpreads(cfg, lost, cfg.plan[k].work, j);
      OtherWork(cfg, j, k);
    }
  }

  lemma OtherWork(cfg: Config, j: nat, k: nat)
    requires ValidConfig(cfg) && j < |cfg.plan| && k < |cfg.plan| && j != k
    ensures cfg.plan[j].work != cfg.plan[k].work
  {
  }

  lemma StillLawful(cfg: Config, lost: set<Id>, db: Db, k: nat)
    requires ValidConfig(cfg) && OnTrackBut(cfg, lost, db, k) && k < |cfg.plan|
    requires InState(db, cfg.plan[k].work, InFlight) && !FateOf(cfg, lost, k).Untried?
    ensures Lawful(cfg, lost + {cfg.plan[k].work})
  {
    hide Sane, FateOf, ParentDigests, Hindered;
    var more := lost + {cfg.plan[k].work};
    forall j | 0 <= j < |cfg.plan| && cfg.plan[j].work in more ensures FateOf(cfg, more, j).Lost? {
      if j == k {
        InterruptedIsLost(cfg, lost, db, k);
      } else {
        OtherWork(cfg, j, k);
        assert FitsRow(cfg, lost, db, j) && FateOf(cfg, lost, j).Lost?;
        LossSpares(cfg, lost, db, k, j);
      }
    }
  }

  lemma CompletedDeps(cfg: Config, db: Db, j: nat)
    requires ValidConfig(cfg) && Healthy(db) && db.plan == cfg.plan && j < |cfg.plan|
    requires Current(db, cfg.plan[j].work).Some? && BeyondReservation(Current(db, cfg.plan[j].work).value.state)
    ensures forall d | d in cfg.plan[j].deps :: InState(db, d, Completed)
  {
    HealthySays(db);
    DepsStayDone(db, cfg.plan[j].work);
    PlanDeps(cfg, db, j);
    forall d | d in cfg.plan[j].deps ensures InState(db, d, Completed) {
      CurrentIsLatest(db, d);
    }
  }

  /** An interrupted item, or one that depends on one however far up. */
  predicate Touched(cfg: Config, lost: set<Id>, k: nat)
    requires DepsFirst(cfg.plan) && k < |cfg.plan|
  {
    cfg.plan[k].work in lost || exists d | d in cfg.plan[k].deps :: Touched(cfg, lost, Earlier(cfg, k, d))
  }

  /** What the interrupted calls leave: those items uncertain, everything that depends on them skipped, and every other
      item exactly where it would have ended without them. */
  lemma {:induction false} InterruptionStays(cfg: Config, lost: set<Id>, k: nat)
    requires DepsFirst(cfg.plan) && Lawful(cfg, lost) && k < |cfg.plan|
    ensures var w, fate := cfg.plan[k].work, FateOf(cfg, lost, k);
      && (w in lost ==> fate.Lost?)
      && (Touched(cfg, lost, k) && w !in lost ==>
            fate == if w in cfg.missing then Untried(Unavailable, cfg.missing[w])
                    else Untried(Blocked, Code.DependencyUnresolved))
      && (!Touched(cfg, lost, k) ==> fate == FateOf(cfg, {}, k))
  {
    var w := cfg.plan[k].work;
    forall d | d in cfg.plan[k].deps
      ensures var j := Earlier(cfg, k, d);
        if Touched(cfg, lost, j) then !FateOf(cfg, lost, j).Succeeds?
        else FateOf(cfg, lost, j) == FateOf(cfg, {}, j)
    {
      InterruptionStays(cfg, lost, Earlier(cfg, k, d));
    }
    if !Touched(cfg, lost, k) && !Hindered(cfg, lost, k) {
      SameParents(cfg, {}, lost, k);
    }
  }

  // ----- the log of calls --------------------------------------------------------------------

  /** The calls a log shows: every start of an attempt is one in-flight event. */
  function Calls(events: seq<Event>): nat {
    if events == [] then 0
    else Calls(events[..|events| - 1]) + if events[|events| - 1].state == InFlight then 1 else 0
  }

  /** The log went on, with so many calls in what was added. */
  predicate Logs(db: Db, next: Db, calls: int) {
    db.events <= next.events && Calls(next.events) == Calls(db.events) + calls
  }

  lemma LogsOne(db: Db, next: Db, e: Event)
    requires next.events == db.events + [e]
    ensures Logs(db, next, if e.state == InFlight then 1 else 0)
  {
    assert next.events[..|next.events| - 1] == db.events;
  }

  lemma {:induction false} MarkLogs(db: Db, works: seq<Id>)
    ensures match MarkUncertain(db, works)
      case Ok(later) => Logs(db, later, 0)
      case Err(_) => true
    decreases |works|
  {
    hide EventGuard, ForeignKeys, EventRowOk;
    if works != [] && Current(db, works[0]).Some? {
      var c := Current(db, works[0]).value;
      var marked := InsertEvent(db, works[0], Uncertain, c.attempt, c.request, None, Some(Interrupted));
      if marked.Some? {
        LogsOne(db, marked.value, marked.value.events[|db.events|]);
        MarkLogs(marked.value, works[1..]);
      }
    }
  }

  /** The first row that is not done with is still to be called. */
  predicate OpenRow(cfg: Config, db: Db) {
    exists k | 0 <= k < |cfg.plan| :: OpenAt(cfg, db, k)
  }

  predicate OpenAt(cfg: Config, db: Db, k: nat)
    requires k < |cfg.plan|
  {
    && (InState(db, cfg.plan[k].work, Planned) || InState(db, cfg.plan[k].work, Reserved))
    && forall j | 0 <= j < k :: Settled(cfg, db, j)
  }

  // ----- one more event ---------------------------------------------------------------------

  ghost predicate Extends(db: Db, next: Db, e: Event) {
    next.plan == db.plan && next.events == db.events + [e]
  }

  /** On track in every row but `k`, which is in the middle of its call. */
  ghost predicate OnTrackBut(cfg: Config, lost: set<Id>, db: Db, k: nat)
    requires DepsFirst(cfg.plan)
  {
    && Healthy(db) && db.plan == cfg.plan && Lawful(cfg, lost)
    && forall j | 0 <= j < |cfg.plan| && j != k :: FitsRow(cfg, lost, db, j)
  }

  lemma OtherRowsStay(cfg: Config, lost: set<Id>, db: Db, next: Db, e: Event, k: nat)
    requires ValidConfig(cfg) && OnTrackBut(cfg, lost, db, k) && Healthy(next) && Extends(db, next, e)
    requires k < |cfg.plan| && e.work == cfg.plan[k].work
    ensures OnTrackBut(cfg, lost, next, k) && Current(next, e.work) == Some(e) && Kept(cfg, db, next, k)
  {
    hide Sane, FateOf;
    forall j | 0 <= j < |cfg.plan|
      ensures Current(next, cfg.plan[j].work) == (if j == k then Some(e) else Current(db, cfg.plan[j].work))
    {
      CurrentAfterAppend(db.events, e, cfg.plan[j].work);
    }
    forall j | 0 <= j < |cfg.plan| && j != k ensures FitsRow(cfg, lost, next, j) {
      assert FitsRow(cfg, lost, db, j);
    }
  }

  /** An event that fits its own row keeps the run on track and leaves every other row alone. */
  lemma TrackStep(cfg: Config, lost: set<Id>, db: Db, next: Db, e: Event, k: nat)
    requires ValidConfig(cfg) && OnTrackBut(cfg, lost, db, k) && Healthy(next) && Extends(db, next, e)
    requires k < |cfg.plan| && e.work == cfg.plan[k].work && Fits(FateOf(cfg, lost, k), e)
    ensures OnTrack(cfg, lost, next) && Current(next, e.work) == Some(e) && Kept(cfg, db, next, k)
  {
    hide Sane, FateOf, Current, Fits;
    OtherRowsStay(cfg, lost, db, next, e, k);
    assert FitsRow(cfg, lost, next, k);
  }

  lemma ButOne(cfg: Config, lost: set<Id>, db: Db, k: nat)
    requires DepsFirst(cfg.plan) && OnTrack(cfg, lost, db)
    ensures OnTrackBut(cfg, lost, db, k)
  {
  }

  // ----- the driver ---------------------------------------------------------------------------

  /** How a drive ended. `Refused` is any error of the run's own checks or of the ledger. */
  datatype End = Finished | Paused | Crashed | Refused

  class SyntheticRun {
    const cfg: Config
    var db: Db
    /** The items whose call was cut off. */
    ghost var lost: set<Id>

    ghost predicate Valid()
      reads this
    {
      ValidConfig(cfg) && OnTrack(cfg, lost, db)
    }

    constructor (cfg: Config)
      requires ValidConfig(cfg)
      ensures Valid() && this.cfg == cfg && lost == {}
    {
      this.cfg := cfg;
      db := Created(cfg.plan);
      lost := {};
      new;
      CreatedOnTrack(cfg);
    }

    /** The check before every resume, row by row. */
    method VerifyArtifacts() returns (ok: bool)
      ensures ok <==> ArtifactsAgree(cfg, db)
    {
      hide InState, Current, RequestNow;
      for k := 0 to |cfg.plan|
        invariant forall j | 0 <= j < k :: RowAgrees(cfg, db, j)
      {
        var c := Current(db, cfg.plan[k].work);
        if c.Some? && c.value.request.Some? {
          if exists d | d in cfg.plan[k].deps :: !InState(db, d, Completed) {
            assert !RowAgrees(cfg, db, k);
            return false;
          }
          var request := RequestNow(cfg, db, k);
          var answered := c.value.result.None? || cfg.adapter(request) == Value(c.value.result.value);
          if c.value.request.value != request || !answered {
            assert !RowAgrees(cfg, db, k);
            return false;
          }
        }
      }
      ok := true;
    }

    /** Reserve under a fresh attempt id, or go on with the reservation there is. */
    method Secure(k: nat, ghost pending: Event) returns (r: Option<Id>)
      requires Valid() && k < |cfg.plan| && Current(db, cfg.plan[k].work) == Some(pending)
      requires (pending.state == Planned || pending.state == Reserved) && !FateOf(cfg, lost, k).Untried?
      requires !FateOf(cfg, lost, k).Lost?
      requires forall d | d in cfg.plan[k].deps :: InState(db, d, Completed)
      modifies this`db
      ensures Valid() && Logs(old(db), db, 0)
      ensures r.Some? && r.value in db.attempts && db.attempts[r.value].work == cfg.plan[k].work
      ensures InState(db, cfg.plan[k].work, Reserved)
      ensures Kept(cfg, old(db), db, k)
    {
      hide OnTrack, FateOf, Hindered, LedgerOps.Reserve, Current, RequestNow;
      var w, request := cfg.plan[k].work, RequestNow(cfg, db, k);
      RowOnTrack(cfg, lost, db, k);
      var c := Current(db, w).value;
      if c.state == Planned {
        UnusedExists(db.attempts.Keys);
        var uuid :| uuid !in db.attempts;
        ReserveOnTrack(cfg, lost, db, k, uuid);
        var reserved := LedgerOps.Reserve(db, w, request, uuid, (n: nat) => true);
        if reserved.Err? {
          return None;
        }
        db := reserved.value;
        return Some(uuid);
      } else {
        if c.request != Some(request) {
          return None;
        }
        return c.attempt;
      }
    }

    /** From the start of the attempt until its outcome is recorded. `Some(true)` says a result was saved. A crash
        in here loses the outcome: the item is left in flight. */
    method Dispatch(k: nat, a: Id, mayLose: bool) returns (r: Option<bool>, cut: bool)
      requires Valid() && k < |cfg.plan| && Carried(cfg, db, k, a, Reserved)
      modifies this
      ensures Valid() && Logs(old(db), db, 1) && Kept(cfg, old(db), db, k)
      ensures cut ==> mayLose && lost == old(lost) + {cfg.plan[k].work} && InState(db, cfg.plan[k].work, InFlight)
      ensures !cut ==>
        && lost == old(lost) && r.Some?
        && (r.value ==> Carried(cfg, db, k, a, ResultSaved)) && (!r.value ==> Settled(cfg, db, k))
    {
      hide OnTrack, OnTrackBut, FateOf, Transition, Current, RequestNow, Fits;
      ButOne(cfg, lost, db, k);
      ReservedFate(cfg, lost, db, k, a);
      var request := RequestNow(cfg, db, k);
      MoveStep(cfg, lost, db, k, a, Reserved, InFlight, None, None);
      var started := StartAttempt(db, a);
      if started.Err? {
        return None, false;
      }
      db := started.value;
      cut := *;
      if mayLose && cut {
        InterruptedOnTrack(cfg, lost, db, k);
        lost := lost + {cfg.plan[k].work};
        return None, true;
      }
      cut := false;
      var outcome: Outcome, saved := Err(Error.InvalidState), false;
      match cfg.adapter(request) {
        case Value(result) =>
          ReplyFits(cfg, lost, k, MoveRow(db, a, ResultSaved, Some(result), None));
          MoveStep(cfg, lost, db, k, a, InFlight, ResultSaved, Some(result), None);
          outcome, saved := LedgerOps.RecordResult(db, a, result), true;
        case Limits =>
          ReplyFits(cfg, lost, k, MoveRow(db, a, Limited, None, Some(AdapterLimited)));
          MoveStep(cfg, lost, db, k, a, InFlight, Limited, None, Some(AdapterLimited));
          outcome := FailAttempt(db, a, AdapterLimited, true);
        case Fails =>
          ReplyFits(cfg, lost, k, MoveRow(db, a, Failed, None, Some(AdapterFailed)));
          MoveStep(cfg, lost, db, k, a, InFlight, Failed, None, Some(AdapterFailed));
          outcome := FailAttempt(db, a, AdapterFailed, false);
        case Malformed =>
          ReplyFits(cfg, lost, k, MoveRow(db, a, Failed, None, Some(InvalidAdapterOutput)));
          MoveStep(cfg, lost, db, k, a, InFlight, Failed, None, Some(InvalidAdapterOutput));
          outcome := FailAttempt(db, a, InvalidAdapterOutput, false);
      }
      if outcome.Err? {
        return None, false;
      }
      db := outcome.value;
      r := Some(saved);
    }

    /** Complete the attempt whose result is saved. */
    method Finish(k: nat) returns (ok: bool)
      requires Valid() && k < |cfg.plan| && InState(db, cfg.plan[k].work, ResultSaved)
      modifies this`db
      ensures Valid() && Logs(old(db), db, 0) && Kept(cfg, old(db), db, k)
      ensures ok && Settled(cfg, db, k)
    {
      hide OnTrack, OnTrackBut, FateOf, Transition, Current, Fits;
      ButOne(cfg, lost, db, k);
      SavedRow(cfg, lost, db, k);
      var c := Current(db, cfg.plan[k].work).value;
      MoveStep(cfg, lost, db, k, c.attempt.value, ResultSaved, Completed, None, None);
      var completed := CompleteAttempt(db, c.attempt.value);
      if completed.Err? {
        return false;
      }
      db := completed.value;
      ok := true;
    }

    /** Skip a planned item for good. */
    method SkipRow(k: nat, state: State, code: Code) returns (ok: bool)
      requires Valid() && k < |cfg.plan| && InState(db, cfg.plan[k].work, Planned)
      requires FateOf(cfg, lost, k) == Untried(state, code)
      modifies this`db
      ensures Valid() && Logs(old(db), db, 0) && Kept(cfg, old(db), db, k)
      ensures ok && Settled(cfg, db, k)
    {
      hide OnTrack, FateOf, Skip;
      SkipOnTrack(cfg, lost, db, k, state, code);
      var skipped := Skip(db, cfg.plan[k].work, state, code);
      if skipped.Err? {
        return false;
      }
      db := skipped.value;
      ok := true;
    }

    /** One turn of the loop. `None` goes on to the next row; `ran` counts a call. A crash may fall at every
        checkpoint; one in the window of the call loses its outcome. */
    method VisitRow(k: nat, pauseHere: bool, mayCrash: bool, mayLose: bool) returns (end: Option<End>, ran: bool)
      requires Valid() && k < |cfg.plan| && Quiet(cfg, db) && forall j | 0 <= j < k :: Settled(cfg, db, j)
      modifies this
      ensures Valid() && Logs(old(db), db, if ran then 1 else 0) && Kept(cfg, old(db), db, k)
      ensures Settled(cfg, old(db), k) ==> db == old(db) && (end.None? || end == Some(Crashed))
      ensures end.None? ==> Settled(cfg, db, k)
      ensures end.Some? ==> (end.value == Paused && pauseHere) || (end.value == Crashed && (mayCrash || mayLose))
      ensures ran ==> !pauseHere
      ensures end == Some(Paused) ==> db == old(db) && OpenAt(cfg, db, k)
      ensures lost == old(lost) ||
        (mayLose && end == Some(Crashed) && lost == old(lost) + {cfg.plan[k].work}
         && InState(db, cfg.plan[k].work, InFlight))
    {
      hide OnTrack, FateOf, Current, Fits, Hindered, Calls;
      ran := false;
      RowState(cfg, lost, db, k);
      var crash: bool := *;
      if mayCrash && crash {
        return Some(Crashed), ran;
      }
      var row, c := cfg.plan[k], Current(db, cfg.plan[k].work).value;
      if c.state == ResultSaved {
        var finished := Finish(k);
        return if finished then None else Some(Refused), ran;
      }
      if c.state != Planned && c.state != Reserved {
        return None, ran;
      }
      if pauseHere {
        return Some(Paused), ran;
      }
      UntriedFate(cfg, lost, k);
      ReadyIsForeseen(cfg, lost, db, k);
      if c.state == Planned && row.work in cfg.missing {
        var skipped := SkipRow(k, Unavailable, cfg.missing[row.work]);
        return if skipped then None else Some(Refused), ran;
      }
      if exists d | d in row.deps :: !InState(db, d, Completed) {
        var skipped := SkipRow(k, Blocked, Code.DependencyUnresolved);
        return if skipped then None else Some(Refused), ran;
      }
      var a := Secure(k, c);
      if a.None? {
        return Some(Refused), ran;
      }
      crash := *;
      if mayCrash && crash {
        return Some(Crashed), ran;
      }
      ghost var secured := db;
      var saved, cut := Dispatch(k, a.value, mayLose);
      ran := true;
      KeptAgain(cfg, old(db), secured, db, k);
      if cut {
        return Some(Crashed), ran;
      }
      if saved.None? {
        return Some(Refused), ran;
      }
      if saved.value {
        crash := *;
        if mayCrash && crash {
          return Some(Crashed), ran;
        }
        ghost var recorded := db;
        var finished := Finish(k);
        KeptAgain(cfg, old(db), recorded, db, k);
        return if finished then None else Some(Refused), ran;
      }
      end := None;
    }

    /**
     Drive the run once, from the check of what is stored through recovery and the plan. It never refuses;
     without a step limit or a crash it ends finished; on a finished run it changes nothing. It makes at most `maxSteps`
     calls, and pauses only when it made all of them and a row waits for its call. Only a crash in the window of a call
     loses an item, and then one.
     */
    method Drive(maxSteps: Option<nat>, mayCrash: bool, mayLose: bool) returns (end: End)
      requires Valid()
      modifies this
      ensures Valid() && old(db.events) <= db.events
      ensures end != Refused && (end == Crashed ==> mayCrash || mayLose)
      ensures match maxSteps
        case None => end != Paused
        case Some(most) =>
          && Calls(db.events) <= Calls(old(db.events)) + most
          && (end == Paused ==> Calls(db.events) == Calls(old(db.events)) + most && OpenRow(cfg, db))
      ensures end == Finished ==> AllAtFate(cfg, lost, db) && LostExactly(cfg, lost, db)
      ensures AllSettled(cfg, old(db)) ==> db == old(db)
      ensures old(lost) <= lost && |lost| <= |old(lost)| + 1
      ensures lost != old(lost) ==> mayLose && end == Crashed
    {
      hide OnTrack, FateOf, AtFate, Calls, Quiet, LostExactly, AllAtFate;
      OnTrackAgrees(cfg, lost, db);
      var ok := VerifyArtifacts();
      if !ok {
        return Refused;
      }
      RecoverOnTrack(cfg, lost, db);
      var recovered := LedgerOps.Recover(db);
      if recovered.Err? {
        return Refused;
      }
      db := recovered.value;
      var steps := 0;
      for k := 0 to |cfg.plan|
        invariant Valid() && old(db.events) <= db.events && Quiet(cfg, db) && lost == old(lost)
        invariant Calls(db.events) == Calls(old(db.events)) + steps && (maxSteps.Some? ==> steps <= maxSteps.value)
        invariant forall j | 0 <= j < k :: Settled(cfg, db, j)
        invariant AllSettled(cfg, old(db)) ==> db == old(db)
      {
        ghost var before := db;
        var stop, ran := VisitRow(k, maxSteps.Some? && steps >= maxSteps.value, mayCrash, mayLose);
        SettledKept(cfg, before, db, k);
        if stop.Some? {
          return stop.value;
        }
        if ran {
          steps := steps + 1;
        }
      }
      SettledIsFate(cfg, lost, db);
      end := Finished;
    }

    /**
     Any number of limited and crashing drives, then one that is left alone. Every item ends where the plan and the
     interrupted calls alone say; without a crash in the window of a call, where one drive would have ended.
     */
    method DriveInPieces(limits: seq<Option<nat>>, mayLose: bool) returns (end: End)
      requires Valid()
      modifies this
      ensures Valid() && end == Finished && AllAtFate(cfg, lost, db) && LostExactly(cfg, lost, db)
      ensures old(db.events) <= db.events
      ensures old(lost) <= lost && |lost| <= |old(lost)| + |limits| && (!mayLose ==> lost == old(lost))
    {
      hide OnTrack, FateOf, AllAtFate, LostExactly;
      for i := 0 to |limits|
        invariant Valid() && old(db.events) <= db.events
        invariant old(lost) <= lost && |lost| <= |old(lost)| + i && (!mayLose ==> lost == old(lost))
      {
        var _ := Drive(limits[i], true, mayLose);
      }
      end := Drive(None, false, false);
    }
  }

  /** The interrupted items are the uncertain ones. */
  predicate LostExactly(cfg: Config, lost: set<Id>, db: Db) {
    forall k | 0 <= k < |cfg.plan| :: cfg.plan[k].work in lost <==> InState(db, cfg.plan[k].work, Uncertain)
  }

  /** Only row `k` may have changed. */
  predicate Kept(cfg: Config, db: Db, next: Db, k: nat) {
    forall j | 0 <= j < |cfg.plan| && j != k :: Current(next, cfg.plan[j].work) == Current(db, cfg.plan[j].work)
  }

  lemma CreatedOnTrack(cfg: Config)
    requires ValidConfig(cfg)
    ensures OnTrack(cfg, {}, Created(cfg.plan))
  {
    CreatedHealthy(cfg.plan);
    var db := Created(cfg.plan);
    forall k | 0 <= k < |cfg.plan| ensures FitsRow(cfg, {}, db, k) {
      HealthyWork(db, cfg.plan[k].work);
      var c := Current(db, cfg.plan[k].work).value;
      assert c in db.events;
    }
  }

  lemma FateRequest(cfg: Config, lost: set<Id>, k: nat)
    requires DepsFirst(cfg.plan) && k < |cfg.plan| && !FateOf(cfg, lost, k).Untried?
    ensures !Hindered(cfg, lost, k)
    ensures FateOf(cfg, lost, k).request == cfg.request(cfg.plan[k], ParentDigests(cfg, lost, k))
    ensures cfg.plan[k].work !in cfg.missing
  {
  }

  /** What being on track says of one reserved row. */
  lemma RowOnTrack(cfg: Config, lost: set<Id>, db: Db, k: nat)
    requires ValidConfig(cfg) && OnTrack(cfg, lost, db) && k < |cfg.plan|
    ensures Current(db, cfg.plan[k].work).Some?
    ensures var c := Current(db, cfg.plan[k].work).value;
      (c.state == Reserved ==>
        && c.request == Some(RequestNow(cfg, db, k)) && c.attempt.Some? && c.attempt.value in db.attempts
        && db.attempts[c.attempt.value].work == cfg.plan[k].work)
  {
    hide Sane, FateOf, Hindered, RequestNow;
    StoredRequest(cfg, lost, db, k);
    if Current(db, cfg.plan[k].work).value.state == Reserved {
      AttemptOfRow(cfg, lost, db, k);
      assert FitsRow(cfg, lost, db, k);
    }
  }

  lemma ReserveOnTrack(cfg: Config, lost: set<Id>, db: Db, k: nat, uuid: Id)
    requires ValidConfig(cfg) && OnTrack(cfg, lost, db) && k < |cfg.plan| && uuid !in db.attempts
    requires InState(db, cfg.plan[k].work, Planned) && !FateOf(cfg, lost, k).Untried?
      && !FateOf(cfg, lost, k).Lost?
    requires forall d | d in cfg.plan[k].deps :: InState(db, d, Completed)
    ensures var w := cfg.plan[k].work;
      var r := LedgerOps.Reserve(db, w, RequestNow(cfg, db, k), uuid, (n: nat) => true);
      && r.Ok? && OnTrack(cfg, lost, r.value) && Kept(cfg, db, r.value, k) && Logs(db, r.value, 0)
      && uuid in r.value.attempts && r.value.attempts[uuid].work == w && InState(r.value, w, Reserved)
  {
    hide Sane, FateOf, Hindered, RequestNow, LedgerOps.Reserve, Fits;
    var w, request := cfg.plan[k].work, RequestNow(cfg, db, k);
    var admit := (n: nat) => true;
    PlanDeps(cfg, db, k);
    RequestIsForeseen(cfg, lost, db, k);
    FateRequest(cfg, lost, k);
    ReserveAgrees(db, w, request, uuid, admit);
    ReservedFits(FateOf(cfg, lost, k), ReservedRow(db, w, request, uuid));
    ButOne(cfg, lost, db, k);
    LogsOne(db, ReservedDb(db, w, request, uuid), ReservedRow(db, w, request, uuid));
    TrackStep(cfg, lost, db, ReservedDb(db, w, request, uuid), ReservedRow(db, w, request, uuid), k);
  }

  lemma ReservedFits(fate: Fate, e: Event)
    requires !fate.Untried? && !fate.Lost? && e.state == Reserved && e.request == Some(fate.request)
    ensures Fits(fate, e)
  {
  }

  /** The attempt of a row, as the ledger operations find it. */
  ghost predicate Carried(cfg: Config, db: Db, k: nat, a: Id, state: State)
    requires k < |cfg.plan|
  {
    a in db.attempts && db.attempts[a].work == cfg.plan[k].work && InState(db, cfg.plan[k].work, state)
  }

  lemma ReservedFate(cfg: Config, lost: set<Id>, db: Db, k: nat, a: Id)
    requires ValidConfig(cfg) && OnTrack(cfg, lost, db) && k < |cfg.plan| && Carried(cfg, db, k, a, Reserved)
    ensures !FateOf(cfg, lost, k).Untried? && !FateOf(cfg, lost, k).Lost?
    ensures FateOf(cfg, lost, k).request == RequestNow(cfg, db, k)
    ensures Current(db, cfg.plan[k].work).value.request == Some(RequestNow(cfg, db, k))
  {
    hide Sane, FateOf, RequestNow, Hindered;
    StoredRequest(cfg, lost, db, k);
    assert FitsRow(cfg, lost, db, k);
  }

  /** The row that follows from the adapter's reply fits. */
  lemma ReplyFits(cfg: Config, lost: set<Id>, k: nat, e: Event)
    requires DepsFirst(cfg.plan) && k < |cfg.plan| && !FateOf(cfg, lost, k).Untried? && !FateOf(cfg, lost, k).Lost?
      && e.request == Some(FateOf(cfg, lost, k).request)
    requires match cfg.adapter(FateOf(cfg, lost, k).request)
      case Value(result) => e.state == ResultSaved && e.result == Some(result)
      case Limits => e.state == Limited && e.code == Some(AdapterLimited)
      case Fails => e.state == Failed && e.code == Some(AdapterFailed)
      case Malformed => e.state == Failed && e.code == Some(InvalidAdapterOutput)
    ensures Fits(FateOf(cfg, lost, k), e)
  {
  }

  /** One plain move of the attempt of row `k`. */
  lemma MoveStep(cfg: Config, lost: set<Id>, db: Db, k: nat, a: Id, source: State, target: State,
                 result: Option<Digest>, code: Option<Code>)
    requires ValidConfig(cfg) && OnTrackBut(cfg, lost, db, k) && k < |cfg.plan| && Carried(cfg, db, k, a, source)
    requires PlainMove(source, target, result, code)
    ensures var r := Transition(db, a, source, target, result, code);
      && r.Ok? && OnTrackBut(cfg, lost, r.value, k) && Kept(cfg, db, r.value, k) && Carried(cfg, r.value, k, a, target)
      && Logs(db, r.value, if target == InFlight then 1 else 0)
      && Current(r.value, cfg.plan[k].work) == Some(MoveRow(db, a, target, result, code))
      && (Fits(FateOf(cfg, lost, k), MoveRow(db, a, target, result, code)) ==> OnTrack(cfg, lost, r.value))
  {
    hide Sane, FateOf, Transition, Current, Fits;
    TransitionAgrees(db, a, source, target, result, code);
    var e := MoveRow(db, a, target, result, code);
    CarriedWork(cfg, db, k, a, source);
    LogsOne(db, Plus(db, e), e);
    var next := Transition(db, a, source, target, result, code).value;
    OtherRowsStay(cfg, lost, db, next, e, k);
    if Fits(FateOf(cfg, lost, k), e) {
      TrackStep(cfg, lost, db, next, e, k);
    }
  }

  lemma CarriedWork(cfg: Config, db: Db, k: nat, a: Id, state: State)
    requires k < |cfg.plan| && Carried(cfg, db, k, a, state)
    ensures Current(db, cfg.plan[k].work).value.work == cfg.plan[k].work
  {
  }

  /** A saved result has its attempt, and completing it fits. */
  lemma SavedRow(cfg: Config, lost: set<Id>, db: Db, k: nat)
    requires ValidConfig(cfg) && OnTrack(cfg, lost, db) && k < |cfg.plan| && InState(db, cfg.plan[k].work, ResultSaved)
    ensures var c := Current(db, cfg.plan[k].work).value;
      && c.attempt.Some? && Carried(cfg, db, k, c.attempt.value, ResultSaved)
      && Fits(FateOf(cfg, lost, k), MoveRow(db, c.attempt.value, Completed, None, None))
  {
    hide Sane, FateOf;
    AttemptOfRow(cfg, lost, db, k);
    assert FitsRow(cfg, lost, db, k);
  }

  lemma UntriedFate(cfg: Config, lost: set<Id>, k: nat)
    requires ValidConfig(cfg) && k < |cfg.plan|
    ensures var fate := FateOf(cfg, lost, k);
      && (cfg.plan[k].work in cfg.missing <==> fate.Untried? && fate.state == Unavailable)
      && (cfg.plan[k].work in cfg.missing ==> fate == Untried(Unavailable, cfg.missing[cfg.plan[k].work]))
      && (cfg.plan[k].work !in cfg.missing && Hindered(cfg, lost, k) ==>
            fate == Untried(Blocked, Code.DependencyUnresolved))
      && (fate.Untried? ==> IsSkipCode(fate.code) && (fate.state == Unavailable || fate.state == Blocked))
      && (cfg.plan[k].work !in cfg.missing && !Hindered(cfg, lost, k) ==> !fate.Untried?)
  {
  }

  lemma SkipOnTrack(cfg: Config, lost: set<Id>, db: Db, k: nat, state: State, code: Code)
    requires ValidConfig(cfg) && OnTrack(cfg, lost, db) && k < |cfg.plan| && InState(db, cfg.plan[k].work, Planned)
    requires FateOf(cfg, lost, k) == Untried(state, code)
    ensures var r := Skip(db, cfg.plan[k].work, state, code);
      && r.Ok? && OnTrack(cfg, lost, r.value) && Kept(cfg, db, r.value, k) && Settled(cfg, r.value, k)
      && Logs(db, r.value, 0)
  {
    hide Sane, FateOf, Skip;
    UntriedFate(cfg, lost, k);
    SkipAgrees(db, cfg.plan[k].work, state, code);
    ButOne(cfg, lost, db, k);
    var e := Event(NextId(db.events), cfg.plan[k].work, state, None, None, None, Some(code));
    LogsOne(db, Plus(db, e), e);
    TrackStep(cfg, lost, db, Skip(db, cfg.plan[k].work, state, code).value, e, k);
  }

  /** No row is in the window of a call. */
  predicate Quiet(cfg: Config, db: Db) {
    forall k | 0 <= k < |cfg.plan| :: !InState(db, cfg.plan[k].work, InFlight)
  }

  /** Outside the window of a call, a row is planned, reserved, saved or settled. */
  lemma RowState(cfg: Config, lost: set<Id>, db: Db, k: nat)
    requires ValidConfig(cfg) && OnTrack(cfg, lost, db) && k < |cfg.plan|
    ensures Current(db, cfg.plan[k].work).Some?
    ensures var s := Current(db, cfg.plan[k].work).value.state;
      && (Quiet(cfg, db) ==> s == Planned || s == Reserved || s == ResultSaved || Settled(cfg, db, k))
      && (s == Planned || s == Reserved ==> !FateOf(cfg, lost, k).Lost?)
      && (s == Reserved ==>
            && !FateOf(cfg, lost, k).Untried?
            && forall d | d in cfg.plan[k].deps :: InState(db, d, Completed))
  {
    hide Sane, FateOf;
    assert FitsRow(cfg, lost, db, k);
    if Current(db, cfg.plan[k].work).value.state == Reserved {
      BeyondDeps(cfg, lost, db, k);
    }
  }

  lemma KeptAgain(cfg: Config, db: Db, mid: Db, next: Db, k: nat)
    requires Kept(cfg, db, mid, k) && Kept(cfg, mid, next, k)
    ensures Kept(cfg, db, next, k)
  {
  }

  lemma SettledKept(cfg: Config, db: Db, next: Db, k: nat)
    requires Kept(cfg, db, next, k) && k < |cfg.plan|
    ensures Quiet(cfg, db) && Settled(cfg, next, k) ==> Quiet(cfg, next)
    ensures forall j | 0 <= j < |cfg.plan| && j != k && Settled(cfg, db, j) :: Settled(cfg, next, j)
  {
  }

  /** Recovery ends the window: what was in flight is uncertain, and all else stays. */
  lemma RecoverOnTrack(cfg: Config, lost: set<Id>, db: Db)
    requires ValidConfig(cfg) && OnTrack(cfg, lost, db)
    ensures var r := LedgerOps.Recover(db);
      && r.Ok? && OnTrack(cfg, lost, r.value) && Quiet(cfg, r.value) && Logs(db, r.value, 0)
      && (AllSettled(cfg, db) ==> r.value == db)
  {
    hide Sane, FateOf, LedgerOps.Recover, Lawful, Settled;
    RecoverAgrees(db);
    assert Logs(db, LedgerOps.Recover(db).value, 0) by { RecoverLogs(db); }
    forall k | 0 <= k < |cfg.plan|
      ensures var later := LedgerOps.Recover(db).value;
        FitsRow(cfg, lost, later, k) && !InState(later, cfg.plan[k].work, InFlight)
    {
      RecoverFits(cfg, lost, db, k);
    }
    if AllSettled(cfg, db) {
      SettledIsLanded(cfg, db);
    }
  }

  lemma RecoverLogs(db: Db)
    requires LedgerOps.Recover(db).Ok?
    ensures Logs(db, LedgerOps.Recover(db).value, 0)
  {
    hide MarkUncertain;
    MarkLogs(db, InFlightWorks(db));
  }

  lemma RecoverFits(cfg: Config, lost: set<Id>, db: Db, k: nat)
    requires DepsFirst(cfg.plan) && Healthy(db) && k < |cfg.plan| && FitsRow(cfg, lost, db, k)
    ensures var r := LedgerOps.Recover(db);
      r.Ok? && FitsRow(cfg, lost, r.value, k) && !InState(r.value, cfg.plan[k].work, InFlight)
  {
    hide Sane, FateOf, LedgerOps.Recover;
    RecoverAgrees(db);
  }

  lemma SettledIsLanded(cfg: Config, db: Db)
    requires Healthy(db) && db.plan == cfg.plan && AllSettled(cfg, db)
    ensures forall w :: !InState(db, w, InFlight)
  {
    hide Sane;
    forall w ensures !InState(db, w, InFlight) {
      HealthyWork(db, w);
      if w in Works(cfg.plan) {
        assert Settled(cfg, db, RowIndex(cfg.plan, w));
      }
    }
  }

  lemma StoredRequest(cfg: Config, lost: set<Id>, db: Db, k: nat)
    requires ValidConfig(cfg) && OnTrack(cfg, lost, db) && k < |cfg.plan|
    ensures Current(db, cfg.plan[k].work).Some? && RowAgrees(cfg, db, k)
  {
    assert FitsRow(cfg, lost, db, k);
    var c := Current(db, cfg.plan[k].work).value;
    if c.request.Some? {
      RowShape(db, cfg.plan[k].work);
      BeyondDeps(cfg, lost, db, k);
      RequestIsForeseen(cfg, lost, db, k);
    }
  }

  lemma BeyondDeps(cfg: Config, lost: set<Id>, db: Db, k: nat)
    requires ValidConfig(cfg) && OnTrack(cfg, lost, db) && k < |cfg.plan|
    requires Current(db, cfg.plan[k].work).Some? && BeyondReservation(Current(db, cfg.plan[k].work).value.state)
    ensures forall d | d in cfg.plan[k].deps :: InState(db, d, Completed)
  {
    CompletedDeps(cfg, db, k);
  }

  lemma AttemptOfRow(cfg: Config, lost: set<Id>, db: Db, k: nat)
    requires ValidConfig(cfg) && OnTrack(cfg, lost, db) && k < |cfg.plan|
    requires Current(db, cfg.plan[k].work).Some? && BeyondReservation(Current(db, cfg.plan[k].work).value.state)
    ensures var c := Current(db, cfg.plan[k].work).value;
      c.attempt.Some? && c.attempt.value in db.attempts && db.attempts[c.attempt.value].work == cfg.plan[k].work
  {
    HealthySays(db);
    CurrentAttempt(db, cfg.plan[k].work);
  }
}
