/**
 Any number of provider runs sharing one campaign. Every reachable state keeps each
 run's invariant and gives every attempt to one run; what this means for calls, for
 resuming and for what a run cannot get out of is stated over whole histories.
 */
module ProviderWorld {
  import opened Wrappers
  import opened Plans
  import opened LedgerTables
  import opened LedgerOps
  import opened LedgerSoundness
  import opened LedgerRuns
  import opened Campaign
  import opened Policies
  import opened ProviderRun
  import opened ProviderInvariant
  import opened ProviderChanges
  import opened ProviderSafety
  import opened ProviderReport
  import opened ProviderRows

  datatype World = World(runs: map<Id, Run>, auth: Authority)

  /** A run is created, or one of the runs takes a step; the processes interleave freely. */
  datatype Happening = Create(r: Id, cfg: Config) | Act(r: Id, act: Action)

  function FreshRun(cfg: Config): Run {
    Run(cfg, Created(cfg.plan), map[], map[], [], Idle)
  }

  /** The run with the name, in the world. */
  ghost predicate Has(w: World, r: Id, run: Run) {
    r in w.runs && w.runs[r] == run
  }

  /** Attempt ids are drawn at random: a new one was never used by any run or reservation. */
  ghost predicate Unused(w: World, a: Id) {
    a !in w.auth.reservations && forall r | r in w.runs :: a !in w.runs[r].db.attempts
  }

  ghost predicate Possible(w: World, h: Happening) {
    match h
    case Create(r, cfg) => r !in w.runs && ValidConfig(cfg)
    case Act(r, act) =>
      r in w.runs && Step(w.runs[r], w.auth, act).Some? && forall a | a in Drawn(act) :: Unused(w, a)
  }

  ghost function Next(w: World, h: Happening): World {
    match h
    case Create(r, cfg) => w.(runs := w.runs[r := FreshRun(cfg)])
    case Act(r, act) =>
      if r in w.runs then var (run, auth) := Stepped(w.runs[r], w.auth, act); World(w.runs[r := run], auth) else w
  }

  /** A whole history; what cannot happen does not. */
  ghost function History(tracking: bool, hs: seq<Happening>): World {
    if hs == [] then World(map[], Authority(tracking, map[]))
    else
      var w, h := History(tracking, hs[..|hs| - 1]), hs[|hs| - 1];
      if Possible(w, h) then Next(w, h) else w
  }

  ghost predicate Owned(w: World, a: Id) {
    exists r :: r in w.runs && a in w.runs[r].db.attempts
  }

  ghost predicate Apart(w: World) {
    forall r, s, a :: r in w.runs && s in w.runs && a in w.runs[r].db.attempts && a in w.runs[s].db.attempts ==> r == s
  }

  ghost predicate WorldInv(w: World) {
    && Sound(w.auth)
    && (forall r | r in w.runs :: RunInv(w.runs[r], w.auth))
    && Apart(w)
    && (forall a | a in w.auth.reservations :: Owned(w, a))
  }

  // ----- the invariant holds in every history ------------------------------------------------

  lemma FreshRunInv(cfg: Config, auth: Authority)
    requires ValidConfig(cfg)
    ensures RunInv(FreshRun(cfg), auth)
  {
    hide Sane, ValidPlan, ValidPolicy, Created, Granted, Estimate;
    CreatedHealthy(cfg.plan);
    FreshState(cfg.plan);
    assert forall a :: Dispatches(FreshRun(cfg).db, a) == 0;
    assert forall a :: Calls([], a) == 0;
  }

  lemma FreshState(plan: seq<Row>)
    ensures Created(plan).attempts == map[] && Created(plan).plan == plan
    ensures Created(plan).retries == map[] && Created(plan).reconciliations == map[]
    ensures forall w, s | s != Planned :: !InState(Created(plan), w, s)
  {
    var db := Created(plan);
    forall w, s | s != Planned ensures !InState(db, w, s) {
      if Current(db, w).Some? {
        var i := Last(db.events, |db.events|, w).value;
        assert db.events[i] == PlannedEvent(i, plan[i].work);
      }
    }
  }

  lemma RunsAreSafe(w: World, r: Id, run: Run)
    requires WorldInv(w) && Has(w, r, run)
    ensures RunInv(run, w.auth) && Sound(w.auth)
  {
    hide Keeps, Sound, Apart, Owned;
  }

  lemma OthersKeep(w: World, r: Id, run: Run, s: Id, other: Run, next: Authority)
    requires WorldInv(w) && Has(w, r, run) && Has(w, s, other) && s != r && AuthGrows(run, w.auth, next)
    ensures RunInv(other, next)
  {
    hide Keeps, Sound, Charged, Owned;
    forall a | a in other.db.attempts && a in next.reservations ensures a in w.auth.reservations {
      assert a !in run.db.attempts;
    }
    GrowthKeeps(other, w.auth, next);
  }

  /** Replacing one run by one whose new ids nobody used keeps the attempts apart. */
  lemma ApartAfter(w: World, r: Id, run: Run, later: Run, auth: Authority, drawn: set<Id>)
    requires Apart(w) && Has(w, r, run) && KeysFrom(run.db, later.db, drawn)
    requires forall a | a in drawn :: Unused(w, a)
    ensures Apart(World(w.runs[r := later], auth))
  {
    var next := World(w.runs[r := later], auth);
    forall x, y, a | x in next.runs && y in next.runs && a in next.runs[x].db.attempts && a in next.runs[y].db.attempts
      ensures x == y
    {
      if a !in drawn {
        assert a in w.runs[x].db.attempts && a in w.runs[y].db.attempts;
      }
    }
  }

  lemma OwnedAfter(w: World, r: Id, run: Run, later: Run, auth: Authority, drawn: set<Id>)
    requires Has(w, r, run) && KeysFrom(run.db, later.db, drawn)
    requires forall a | a in w.auth.reservations :: Owned(w, a)
    requires forall a | a in auth.reservations :: a in w.auth.reservations || a in run.db.attempts
    ensures forall a | a in auth.reservations :: Owned(World(w.runs[r := later], auth), a)
  {
    var next := World(w.runs[r := later], auth);
    forall a | a in auth.reservations ensures Owned(next, a) {
      if a in run.db.attempts {
        assert a in next.runs[r].db.attempts;
      } else {
        var s :| s in w.runs && a in w.runs[s].db.attempts;
        assert a in next.runs[s].db.attempts;
      }
    }
  }

  /** What can happen to one run when something happens: nothing, its creation, or a step that changes what it may. */
  ghost predicate Turns(w: World, h: Happening, r: Id) {
    var next := Next(w, h);
    && (r in w.runs ==> r in next.runs)
    && (r in next.runs && r !in w.runs ==> h.Create? && next.runs[r] == FreshRun(h.cfg) && ValidConfig(h.cfg))
    && (r in next.runs && r in w.runs && next.runs[r] != w.runs[r] ==>
          && h.Act? && h.r == r && Step(w.runs[r], w.auth, h.act) == Some((next.runs[r], next.auth))
          && Changes(w.runs[r], next.runs[r], Drawn(h.act)) && Flows(w.runs[r], next.runs[r]))
  }

  lemma ActKeepsWorld(w: World, r: Id, run: Run, act: Action)
    requires WorldInv(w) && Possible(w, Act(r, act)) && Has(w, r, run)
    ensures WorldInv(Next(w, Act(r, act))) && Next(w, Act(r, act)).auth.tracking == w.auth.tracking
    ensures forall s :: Turns(w, Act(r, act), s)
  {
    hide Keeps, Sound, Step, Apart, Owned, TablesMove, KeysFrom, Progress, Flows;
    var (later, auth) := Stepped(run, w.auth, act);
    var next := World(w.runs[r := later], auth);
    StepKeeps(run, w.auth, act, later, auth);
    KeysOf(run, later, Drawn(act));
    forall s | s in next.runs ensures RunInv(next.runs[s], next.auth) {
      if s != r {
        OthersKeep(w, r, run, s, w.runs[s], auth);
      }
    }
    ApartAfter(w, r, run, later, auth, Drawn(act));
    OwnedAfter(w, r, run, later, auth, Drawn(act));
  }

  lemma KeysOf(run: Run, later: Run, drawn: set<Id>)
    requires Changes(run, later, drawn)
    ensures KeysFrom(run.db, later.db, drawn)
  {
    hide RowMoves, GrantedTo, Progress, HasRoom;
  }

  lemma CreateKeepsWorld(w: World, r: Id, cfg: Config)
    requires WorldInv(w) && Possible(w, Create(r, cfg))
    ensures WorldInv(Next(w, Create(r, cfg))) && forall s :: Turns(w, Create(r, cfg), s)
  {
    hide Keeps, Sound, Created, ValidConfig, Step;
    FreshRunInv(cfg, w.auth);
    FreshState(cfg.plan);
    var next := Next(w, Create(r, cfg));
    forall a | a in next.auth.reservations ensures Owned(next, a) {
      var s :| s in w.runs && a in w.runs[s].db.attempts;
      assert a in next.runs[s].db.attempts;
    }
  }

  lemma HappeningKeeps(w: World, h: Happening)
    requires WorldInv(w) && Possible(w, h)
    ensures WorldInv(Next(w, h)) && Next(w, h).auth.tracking == w.auth.tracking && forall r :: Turns(w, h, r)
  {
    hide WorldInv, Next, Turns, Step, ValidConfig;
    match h {
      case Create(r, cfg) =>
        CreateKeepsWorld(w, r, cfg);
        assert Next(w, h).auth == w.auth by { CreateAuth(w, r, cfg); }
      case Act(r, act) => ActKeepsWorld(w, r, w.runs[r], act);
    }
  }

  lemma CreateAuth(w: World, r: Id, cfg: Config)
    ensures Next(w, Create(r, cfg)).auth == w.auth
  {
    hide Stepped, FreshRun;
  }

  /** The invariant holds in every history of every number of runs. */
  lemma {:induction false} EveryHistoryIsSafe(tracking: bool, hs: seq<Happening>)
    ensures WorldInv(History(tracking, hs)) && History(tracking, hs).auth.tracking == tracking
  {
    hide WorldInv, Next, Possible;
    if hs == [] {
      NothingIsSafe(tracking);
    } else {
      EveryHistoryIsSafe(tracking, hs[..|hs| - 1]);
      var w, h := History(tracking, hs[..|hs| - 1]), hs[|hs| - 1];
      if Possible(w, h) {
        HappeningKeeps(w, h);
      }
    }
  }

  lemma NothingIsSafe(tracking: bool)
    ensures WorldInv(World(map[], Authority(tracking, map[])))
  {
    hide Keeps;
  }

  // ----- the safety theorem ------------------------------------------------------------------

  /** Number of in-flight events of an attempt's item; none without the attempt. */
  function Sent(db: Db, a: Id): nat {
    if a in db.attempts then Count(db.events, |db.events|, db.attempts[a].work, InFlight) else 0
  }

  /** In every history: calls of an attempt, its in-flight events, and the one retry bound each other;
      every called attempt holds its campaign reservation; at most one item of a run is in flight. */
  lemma DispatchSafety(tracking: bool, hs: seq<Happening>, r: Id, run: Run, a: Id)
    requires Has(History(tracking, hs), r, run)
    ensures Calls(run.invoked, a) <= Sent(run.db, a)
    ensures a in run.db.attempts ==> Sent(run.db, a) <= 1 + One(a in run.db.retries)
    ensures Calls(run.invoked, a) > 0 ==> PaidFor(run, History(tracking, hs).auth, a)
    ensures forall v, x :: InState(run.db, v, InFlight) && InState(run.db, x, InFlight) ==> v == x
  {
    hide WorldInv, History, Sent, Calls, Charged;
    EveryHistoryIsSafe(tracking, hs);
    RunsAreSafe(History(tracking, hs), r, run);
    RunIsSafe(run, History(tracking, hs).auth, a);
    if Calls(run.invoked, a) > 0 {
      ChargedIsPaid(run, History(tracking, hs).auth, a);
    }
  }

  lemma RunIsSafe(run: Run, auth: Authority, a: Id)
    requires RunInv(run, auth)
    ensures Calls(run.invoked, a) <= Sent(run.db, a)
    ensures a in run.db.attempts ==> Sent(run.db, a) <= 1 + One(a in run.db.retries)
    ensures Calls(run.invoked, a) > 0 ==> Charged(run.cfg, run.db, auth, a)
    ensures forall v, x :: InState(run.db, v, InFlight) && InState(run.db, x, InFlight) ==> v == x
  {
    hide Keeps, Sane, Count, Granted;
    InvHealthy(run, auth);
    InvTables(run, auth);
    if a in run.db.attempts {
      DispatchesAreEvents(run.db, a);
    }
    IdleInFlight(run, auth);
    assert Calls(run.invoked, a) + Spare(run.pc, a) <= Dispatches(run.db, a);
  }

  /** The attempt's reservation is bound to its run, its request and its policy, and holds exactly the fewest units that
      cover its worst case; a run that only tracks reserves no amount. */
  ghost predicate PaidFor(run: Run, auth: Authority, a: Id) {
    && a in auth.reservations && auth.reservations[a].binding.attempt == a
    && var r := auth.reservations[a];
      && r.binding.run == run.cfg.run && r.binding.request == RequestOf(run.db, a)
      && r.binding.config == run.cfg.config && r.binding.provider == run.cfg.provider
      && if run.cfg.policy.caps.None? then r.binding.amount.None? && r.units.None?
         else r.binding.amount == Some(WorstCase(run.cfg.policy)) && r.units.Some?
              && LeastCover(r.units.value, WorstCase(run.cfg.policy))
  }

  lemma ChargedIsPaid(run: Run, auth: Authority, a: Id)
    requires RunInv(run, auth) && Sound(auth) && Charged(run.cfg, run.db, auth, a)
    ensures PaidFor(run, auth, a)
  {
    hide Keeps, Sane, ValidAmount, AmountUnits, LeastCover, Total, ValidPlan, TokenBudget.TokenCost, WorstCase;
    InvHealthy(run, auth);
    if run.cfg.policy.caps.Some? {
      ReservationIsLinear(run.cfg.policy, 1);
    }
    assert RowSound(auth, a);
  }

  /** Every call of every history was made by a launched attempt with a free dispatch and its reservation in place. */
  lemma EveryCallIsFunded(tracking: bool, hs: seq<Happening>, r: Id, run: Run, reply: Reply)
    requires Has(History(tracking, hs), r, run) && Possible(History(tracking, hs), Act(r, Invoke(reply)))
    ensures var a := PcAttempt(run.pc);
      && run.pc.Launched? && a in run.db.attempts && InState(run.db, WorkOf(run.db, a), InFlight)
      && PaidFor(run, History(tracking, hs).auth, a)
      && Calls(run.invoked, a) <= One(a in run.db.retries)
  {
    hide WorldInv, History, Calls, Charged, Keeps, Dispatches;
    EveryHistoryIsSafe(tracking, hs);
    RunsAreSafe(History(tracking, hs), r, run);
    InvokedIsFunded(run, History(tracking, hs).auth, reply);
    ChargedIsPaid(run, History(tracking, hs).auth, PcAttempt(run.pc));
  }

  /** In every history a reserved row is rebuilt to its stored request, with its prompt, whatever revision input is
      passed; what was built is never held against it; and the campaign neither refuses the attempt's repeated claim as
      a mismatch nor charges it twice. */
  lemma ResumeIsIdempotent(tracking: bool, hs: seq<Happening>, r: Id, run: Run, k: nat, revisionInput: Option<External>,
                           uuid: Id)
    requires Has(History(tracking, hs), r, run) && k < |run.cfg.plan|
    ensures InState(run.db, PlanRow(run, k).work, Reserved) ==> RebuiltAt(run, k, revisionInput)
    ensures run.pc.Built? ==> !DoHold(run, uuid).RequestMismatch?
    ensures run.pc.Held? ==> ChargedOnce(run, History(tracking, hs).auth)
  {
    hide WorldInv, History, Sound, RequestAt, DoHold, DoFund, Admission, NeedsCall, Awaits, Keeps, InState;
    EveryHistoryIsSafe(tracking, hs);
    var auth := History(tracking, hs).auth;
    RunsAreSafe(History(tracking, hs), r, run);
    if InState(run.db, PlanRow(run, k).work, Reserved) {
      ReservedRowIs(run, auth, k, revisionInput);
    }
    if run.pc.Built? {
      HoldNeverMismatches(run, auth, uuid);
    }
    if run.pc.Held? {
      ResumedAttemptIsNotChargedAgain(run, auth);
    }
  }

  /** The request built for row `k` now is the one its row carries, and it has its prompt. */
  predicate RebuiltAt(run: Run, k: nat, revisionInput: Option<External>) {
    && RowOf(run.db, PlanRow(run, k).work).request == Some(run.cfg.hash(EnvelopeBlob(RequestAt(run, k, revisionInput))))
    && !Awaits(run, k, revisionInput)
    && run.cfg.prompt(PlanRow(run, k), RequestAt(run, k, revisionInput)).Some?
  }

  /** The claim of the attempt at hand, repeated, is no mismatch, and with a reservation it is granted and changes
      nothing. */
  ghost predicate ChargedOnce(run: Run, auth: Authority) {
    && Answer(run, auth) != Err(BindingMismatch)
    && (PcAttempt(run.pc) in auth.reservations ==>
          DoFund(run, auth) == Some((run.(pc := Funded(PcRow(run.pc), PcAttempt(run.pc))), auth)))
  }

  // ----- runs of the wrong kind ------------------------------------------------------------------

  /** A run whose policy is capped while the campaign only tracks, or the other way round, is never charged,
      dispatched or called; every claim it makes is refused for that reason. */
  lemma WrongModeIsNeverCalled(tracking: bool, hs: seq<Happening>, r: Id, run: Run)
    requires Has(History(tracking, hs), r, run) && !(tracking <==> run.cfg.policy.caps.None?)
    ensures run.invoked == []
    ensures forall a | a in run.db.attempts ::
      a !in History(tracking, hs).auth.reservations && Dispatches(run.db, a) == 0
    ensures run.pc.Held? ==>
      Answer(run, History(tracking, hs).auth) ==
        Err(if tracking then TrackingRequiresNoReservation else InvalidUpperBound)
  {
    hide WorldInv, History, Admission, ClaimFor, Dispatches;
    EveryHistoryIsSafe(tracking, hs);
    RunsAreSafe(History(tracking, hs), r, run);
    WrongModeRun(run, History(tracking, hs).auth);
  }

  lemma WrongModeRun(run: Run, auth: Authority)
    requires RunInv(run, auth) && !(auth.tracking <==> run.cfg.policy.caps.None?)
    ensures run.invoked == []
    ensures forall a | a in run.db.attempts :: a !in auth.reservations && Dispatches(run.db, a) == 0
    ensures run.pc.Held? ==>
      Answer(run, auth) == Err(if auth.tracking then TrackingRequiresNoReservation else InvalidUpperBound)
  {
    hide Keeps, InFlightOk, ValidAmount, AmountUnits, Guard;
    InvTables(run, auth);
    forall a ensures !Charged(run.cfg, run.db, auth, a) {
      ModeOfCharge(run, auth, a);
    }
    forall a | a in run.db.attempts ensures a !in auth.reservations && Dispatches(run.db, a) == 0 {
    }
    if run.invoked != [] {
      CalledIsCounted(run.invoked);
    }
  }

  lemma CalledIsCounted(invoked: seq<Id>)
    requires invoked != []
    ensures Calls(invoked, invoked[0]) > 0
  {
    assert invoked[0] in multiset(invoked);
  }

  lemma ModeOfCharge(run: Run, auth: Authority, a: Id)
    ensures Charged(run.cfg, run.db, auth, a) ==> (auth.tracking <==> run.cfg.policy.caps.None?)
  {
    hide ValidAmount, AmountUnits, TokenBudget.TokenCost;
  }

  // ----- what a run cannot get out of --------------------------------------------------------------

  /** What holds of a fresh run and is kept by every change a step may make. */
  ghost predicate Lasting(P: Run -> bool) {
    && (forall cfg: Config :: P(FreshRun(cfg)))
    && (forall run, auth, later, next, drawn: set<Id> ::
          (RunInv(run, auth) && RunInv(later, next) && Changes(run, later, drawn) && Flows(run, later)
           && |drawn| <= 1 && P(run)) ==>
            P(later))
  }

  /** What lasts holds of every run of every history. */
  lemma {:induction false} EveryRunIs(tracking: bool, hs: seq<Happening>, r: Id, run: Run, P: Run -> bool)
    requires Lasting(P) && Has(History(tracking, hs), r, run)
    ensures P(run)
  {
    hide WorldInv, Possible, Next, Changes, Flows, Keeps, FreshRun, Step;
    if hs != [] {
      var w, h := History(tracking, hs[..|hs| - 1]), hs[|hs| - 1];
      EveryHistoryIsSafe(tracking, hs[..|hs| - 1]);
      EveryHistoryIsSafe(tracking, hs);
      RunsAreSafe(History(tracking, hs), r, run);
      if Possible(w, h) {
        HappeningKeeps(w, h);
        assert Turns(w, h, r);
      }
      if r in w.runs {
        EveryRunIs(tracking, hs[..|hs| - 1], r, w.runs[r], P);
        RunsAreSafe(w, r, w.runs[r]);
      }
    }
  }

  /** On top of each run's invariant: rows behind the loop are done with, and blocked rows have their reason. */
  lemma EveryLoopIsOk(tracking: bool, hs: seq<Happening>, r: Id, run: Run)
    requires Has(History(tracking, hs), r, run)
    ensures LoopOk(run)
  {
    hide History, LoopOk, Changes, Flows, Keeps, FreshRun;
    ghost var P := (x: Run) => LoopOk(x);
    forall cfg: Config ensures P(FreshRun(cfg)) {
      FreshLoopIsOk(cfg);
    }
    forall x, auth, later, next, drawn: set<Id> |
        RunInv(x, auth) && RunInv(later, next) && Changes(x, later, drawn) && P(x)
      ensures P(later)
    {
      StepLoop(x, auth, later, drawn);
    }
    EveryRunIs(tracking, hs, r, run, P);
  }

  lemma FreshLoopIsOk(cfg: Config)
    ensures LoopOk(FreshRun(cfg))
  {
    hide Marred, Created, InState;
    FreshState(cfg.plan);
  }

  /** In every history, with dependencies listed first: a blocked row whose dependencies are all completed now has one
      whose success came by a retry or a reconciliation. */
  lemma BlockedThenCompleted(tracking: bool, hs: seq<Happening>, r: Id, run: Run, k: nat)
    requires Has(History(tracking, hs), r, run) && DepsFirst(run.cfg.plan) && k < |run.cfg.plan|
    requires InState(run.db, PlanRow(run, k).work, Blocked) && DepsCompleted(run.db, PlanRow(run, k).work)
    ensures exists d :: d in PlanRow(run, k).deps && RecoveredSuccess(run.db, d)
  {
    hide WorldInv, Keeps, History, Sane;
    EveryLoopIsOk(tracking, hs, r, run);
    EveryHistoryIsSafe(tracking, hs);
    assert BlockedRow(run, k);
    var d :| d in PlanRow(run, k).deps && Marred(run.db, d);
    RunsAreSafe(History(tracking, hs), r, run);
    InvHealthy(run, History(tracking, hs).auth);
    DepsOfRow(run.cfg.plan, k);
    assert InState(run.db, d, Completed);
    assert RecoveredSuccess(run.db, d);
  }

  /** Completed by an attempt that was retried or reconciled. */
  predicate RecoveredSuccess(db: Db, w: Id) {
    && InState(db, w, Completed) && RowOf(db, w).attempt.Some?
    && (AttemptOn(db, w) in db.retries || AttemptOn(db, w) in db.reconciliations)
  }

  /** What happens to one run when a history goes on: it is as before, or took a step that changes what it may. */
  lemma GoesOn(tracking: bool, hs: seq<Happening>, h: Happening, r: Id, run: Run)
    returns (auth: Authority, later: Run, next: Authority, drawn: set<Id>)
    requires Has(History(tracking, hs), r, run)
    ensures Has(History(tracking, hs + [h]), r, later) && RunInv(run, auth) && RunInv(later, next)
    ensures later == run || (Changes(run, later, drawn) && Flows(run, later))
    ensures run.pc == Idle && !NoneTorn(run.receipts) ==> later == run
  {
    hide WorldInv, Possible, Next, Changes, Flows, Step, Keeps, NoneTorn;
    var w := History(tracking, hs);
    assert (hs + [h])[..|hs|] == hs;
    EveryHistoryIsSafe(tracking, hs);
    EveryHistoryIsSafe(tracking, hs + [h]);
    RunsAreSafe(w, r, run);
    if Possible(w, h) {
      HappeningKeeps(w, h);
      assert Turns(w, h, r);
      if h.Act? && run.pc == Idle && !NoneTorn(run.receipts) {
        TornRefusesAll(run, w.auth, h.act);
      }
    }
    later := History(tracking, hs + [h]).runs[r];
    RunsAreSafe(History(tracking, hs + [h]), r, later);
    auth, next, drawn := w.auth, History(tracking, hs + [h]).auth, if h.Act? then Drawn(h.act) else {};
  }

  /** A row that is due and has no prompt, with whatever revision input: in every future of the history, however
      often the run is resumed, it is still due and without a prompt, never reserved, and no drive gets past it. */
  lemma {:induction false} RefusedInEveryFuture(tracking: bool, hs: seq<Happening>, more: seq<Happening>, r: Id,
                                                run: Run, k: nat)
    requires Has(History(tracking, hs), r, run) && Refused(run, k)
    ensures exists later :: Has(History(tracking, hs + more), r, later) && StuckAt(later, k)
    decreases |more|
  {
    hide Keeps, LoopOk, Refused, StuckAt, History, Changes, Flows;
    var later := run;
    if more == [] {
      assert hs + more == hs;
    } else {
      RefusedInEveryFuture(tracking, hs, more[..|more| - 1], r, run, k);
      var before :| Has(History(tracking, hs + more[..|more| - 1]), r, before) && StuckAt(before, k);
      StuckIsRefused(before, k);
      assert hs + more == hs + more[..|more| - 1] + [more[|more| - 1]];
      var auth, after, next, drawn := GoesOn(tracking, hs + more[..|more| - 1], more[|more| - 1], r, before);
      if after != before {
        RefusedKeeps(before, auth, after, next, drawn, k);
      }
      later := after;
    }
    EveryLoopIsOk(tracking, hs + more, r, later);
    EveryHistoryIsSafe(tracking, hs + more);
    RunsAreSafe(History(tracking, hs + more), r, later);
    RefusedIsStuck(later, History(tracking, hs + more).auth, k);
  }

  /** A run with a torn receipt: in every future of the history it is exactly as it was left. */
  lemma {:induction false} TornInEveryFuture(tracking: bool, hs: seq<Happening>, more: seq<Happening>, r: Id, run: Run)
    requires Has(History(tracking, hs), r, run) && run.pc == Idle && !NoneTorn(run.receipts)
    ensures Has(History(tracking, hs + more), r, run)
    decreases |more|
  {
    hide Keeps, NoneTorn, History, Changes, Flows;
    if more == [] {
      assert hs + more == hs;
    } else {
      TornInEveryFuture(tracking, hs, more[..|more| - 1], r, run);
      assert hs + more == hs + more[..|more| - 1] + [more[|more| - 1]];
      var auth, later, next, drawn := GoesOn(tracking, hs + more[..|more| - 1], more[|more| - 1], r, run);
    }
  }
}
