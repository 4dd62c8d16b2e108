/**
 What one step of a provider run can do to the state rows, and what follows for whole
 runs: the rows behind the loop are done with, a row whose prompt cannot be built
 stays refused and stops every drive, and a blocked row has a dependency that did not
 succeed when it was reached.
 */
module ProviderRows {
  import opened Wrappers
  import opened Plans
  import opened LedgerTables
  import opened LedgerOps
  import opened LedgerRuns
  import opened Campaign
  import opened Policies
  import opened ProviderRun
  import opened ProviderInvariant
  import opened ProviderChanges
  import opened ProviderSafety

  // ----- the rows behind the loop ------------------------------------------------------------------

  /** The loop is at most one past the last row, and every row behind it is done with. */
  ghost predicate Behind(run: Run) {
    Driving(run.pc) ==> PcRow(run.pc) <= |run.cfg.plan| && SettledUpTo(run.cfg.plan, run.db, PcRow(run.pc))
  }

  predicate SettledUpTo(plan: seq<Row>, db: Db, k: nat) {
    forall j | 0 <= j < k && j < |plan| :: Settled(db, plan[j].work)
  }

  /** Rows done with are left alone by a driving process. */
  lemma SettledStays(run: Run, later: Run, w: Id)
    requires Driving(run.pc) && Settled(run.db, w) && RowMoves(run, later.db, w)
    ensures Current(later.db, w) == Current(run.db, w) && Settled(later.db, w)
  {
  }

  /** The rows behind the loop are done with, in every reachable run. */
  lemma BehindKeeps(run: Run, later: Run, drawn: set<Id>)
    requires Behind(run) && Changes(run, later, drawn)
    ensures Behind(later)
  {
    hide Settled, RowMoves;
    if Driving(run.pc) && Driving(later.pc) {
      forall j | 0 <= j < PcRow(run.pc) && j < |run.cfg.plan| ensures Settled(later.db, run.cfg.plan[j].work) {
        SettledStays(run, later, run.cfg.plan[j].work);
      }
    }
  }

  // ----- blocked rows --------------------------------------------------------------------------------

  /** Without its success, or with a success that came only by a retry or a reconciliation. */
  predicate Marred(db: Db, w: Id) {
    && Current(db, w).Some?
    && var c := RowOf(db, w);
      || (c.state != Completed && Terminal(c.state)) || c.state == Uncertain
      || (c.state != Planned && c.attempt.Some?
          && (AttemptOn(db, w) in db.retries || AttemptOn(db, w) in db.reconciliations))
  }

  lemma MarredStays(run: Run, later: Run, drawn: set<Id>, w: Id)
    requires Marred(run.db, w) && Changes(run, later, drawn)
    ensures Marred(later.db, w)
  {
    assert RowMoves(run, later.db, w);
  }

  ghost predicate BlockedRow(run: Run, k: nat) {
    InState(run.db, PlanRow(run, k).work, Blocked) ==>
      exists d :: d in PlanRow(run, k).deps && Marred(run.db, d)
  }

  ghost predicate BlockedOk(run: Run) {
    DepsFirst(run.cfg.plan) ==> forall k | 0 <= k < |run.cfg.plan| :: BlockedRow(run, k)
  }

  /** When a row is blocked, the dependency that kept it back is behind the loop. */
  lemma NewlyBlocked(run: Run, later: Run, drawn: set<Id>, k: nat)
    requires ValidPlan(run.cfg.plan) && run.db.plan == run.cfg.plan
    requires Behind(run) && DepsFirst(run.cfg.plan) && Changes(run, later, drawn)
    requires k < |run.cfg.plan| && !InState(run.db, PlanRow(run, k).work, Blocked)
    requires InState(later.db, PlanRow(run, k).work, Blocked)
    ensures BlockedRow(later, k)
  {
    hide TablesMove, Marred, Progress, Acyclic;
    var row := PlanRow(run, k);
    BlockedAtHand(run, later, drawn, k);
    DepsOfRow(run.cfg.plan, k);
    var d :| d in row.deps && !InState(run.db, d, Completed);
    assert d in Works(run.cfg.plan[..k]);
    var j :| 0 <= j < k && run.cfg.plan[j].work == d;
    SettledIsMarred(run.db, d, j, run.cfg.plan);
    MarredStays(run, later, drawn, d);
  }

  lemma BlockedAtHand(run: Run, later: Run, drawn: set<Id>, k: nat)
    requires ValidPlan(run.cfg.plan) && k < |run.cfg.plan| && Changes(run, later, drawn)
    requires !InState(run.db, PlanRow(run, k).work, Blocked) && InState(later.db, PlanRow(run, k).work, Blocked)
    ensures run.pc == At(k) && !DepsCompleted(run.db, PlanRow(run, k).work)
  {
    hide DepsCompleted, Progress;
    assert RowMoves(run, later.db, PlanRow(run, k).work);
  }

  lemma SettledIsMarred(db: Db, d: Id, j: nat, plan: seq<Row>)
    requires SettledUpTo(plan, db, j + 1) && j < |plan| && plan[j].work == d && !InState(db, d, Completed)
    ensures Marred(db, d)
  {
    assert Settled(db, plan[j].work);
  }

  lemma BlockedKeeps(run: Run, later: Run, drawn: set<Id>)
    requires ValidPlan(run.cfg.plan) && run.db.plan == run.cfg.plan
    requires Behind(run) && BlockedOk(run) && Changes(run, later, drawn)
    ensures BlockedOk(later)
  {
    hide TablesMove, Marred, Behind, DepsFirst, ValidPlan, Progress;
    if DepsFirst(run.cfg.plan) {
      forall k | 0 <= k < |run.cfg.plan| ensures BlockedRow(later, k) {
        if InState(run.db, PlanRow(run, k).work, Blocked) && InState(later.db, PlanRow(run, k).work, Blocked) {
          assert BlockedRow(run, k);
          var d :| d in PlanRow(run, k).deps && Marred(run.db, d);
          MarredStays(run, later, drawn, d);
        } else if InState(later.db, PlanRow(run, k).work, Blocked) {
          NewlyBlocked(run, later, drawn, k);
        }
      }
    }
  }

  // ----- rows whose prompt cannot be built -------------------------------------------------------------

  /** No request that could be built for the row has a prompt: for a revision, whatever input is passed. */
  ghost predicate NoPromptFor(run: Run, row: Row) {
    if row.role == Revision then forall input: External :: run.cfg.prompt(row, Build(run, row, Some(input))).None?
    else run.cfg.prompt(row, Build(run, row, None)).None?
  }

  /** A row that is due, and whose request has no prompt. */
  ghost predicate Refused(run: Run, k: nat) {
    && k < |run.cfg.plan| && InState(run.db, PlanRow(run, k).work, Planned)
    && HasInput(run, PlanRow(run, k)) && DepsCompleted(run.db, PlanRow(run, k).work)
    && NoPromptFor(run, PlanRow(run, k))
  }

  /** To be refused is to be planned and to be refused by a drive: for a revision with every input, for any other row
      with any. */
  lemma RefusedExactly(run: Run, auth: Authority, k: nat, revisionInput: Option<External>)
    requires RunInv(run, auth) && k < |run.cfg.plan|
    ensures PlanRow(run, k).role != Revision ==>
      (Refused(run, k) <==> Unpromptable(run, k, revisionInput) && InState(run.db, PlanRow(run, k).work, Planned))
    ensures PlanRow(run, k).role == Revision ==>
      (Refused(run, k) <==>
         InState(run.db, PlanRow(run, k).work, Planned) && forall input :: Unpromptable(run, k, Some(input)))
  {
    hide Keeps, DepsCompleted, Build, InState;
    var row := PlanRow(run, k);
    if InState(run.db, row.work, Planned) {
      PlannedExternal(run, auth, k);
      if row.role == Revision && forall input :: Unpromptable(run, k, Some(input)) {
        forall input: External ensures run.cfg.prompt(row, Build(run, row, Some(input))).None? {
          assert Unpromptable(run, k, Some(input));
        }
        assert Unpromptable(run, k, Some(External(Id(0), false, Text(""), Text(""), [])));
      }
    }
  }

  /** A planned row is built with what is passed now. */
  lemma PlannedExternal(run: Run, auth: Authority, k: nat)
    requires RunInv(run, auth) && InState(run.db, PlanRow(run, k).work, Planned)
    ensures forall revisionInput :: ExternalAt(run, k, revisionInput) == revisionInput
    ensures PlanRow(run, k).role != Revision ==> forall revisionInput ::
      RequestAt(run, k, revisionInput) == Build(run, PlanRow(run, k), None)
  {
    hide Keeps;
    PlannedHasNoRequest(run, auth, PlanRow(run, k).work);
  }

  /** Between two runs of the invariant, a step's changes keep everything a finished row is made of. */
  lemma StepPreserves(run: Run, auth: Authority, later: Run, next: Authority, drawn: set<Id>)
    requires RunInv(run, auth) && RunInv(later, next) && Changes(run, later, drawn)
    ensures Preserves(run, later)
  {
    hide Keeps, Sane, ResultsOk, ValidPolicy, Progress;
    InvHealthy(run, auth);
    InvHealthy(later, next);
    InvResults(run, auth);
    forall w | InState(run.db, w, Completed) ensures Current(later.db, w) == Current(run.db, w) {
      assert RowMoves(run, later.db, w);
    }
  }

  /** A refused row stays planned: nothing was built for it, so nothing can be reserved. */
  lemma RefusedIsPlanned(run: Run, auth: Authority, later: Run, k: nat)
    requires RunInv(run, auth) && Refused(run, k) && RowMoves(run, later.db, PlanRow(run, k).work)
    ensures InState(later.db, PlanRow(run, k).work, Planned)
  {
    hide Keeps, Sane, DepsCompleted, Build;
    InvHealthy(run, auth);
    PlannedHasNoRequest(run, auth, PlanRow(run, k).work);
    if run.pc.Built? && PcRow(run.pc) == k {
      BuiltRow(run, auth);
      BuiltIsPromptable(run);
    }
  }

  lemma BuiltIsPromptable(run: Run)
    requires StoredRequest(run, PcRow(run.pc), PcRequest(run.pc))
    ensures !NoPromptFor(run, PlanRow(run, PcRow(run.pc)))
  {
    hide DepsCompleted;
    var row, env := PlanRow(run, PcRow(run.pc)), run.objects[PcRequest(run.pc)].envelope;
    if row.role == Revision {
      assert run.cfg.prompt(row, Build(run, row, Some(env.external.value))).Some?;
    } else {
      assert Build(run, row, None) == env;
    }
  }

  /** A refused row stays refused. */
  lemma RefusedKeeps(run: Run, auth: Authority, later: Run, next: Authority, drawn: set<Id>, k: nat)
    requires RunInv(run, auth) && RunInv(later, next) && Changes(run, later, drawn) && Refused(run, k)
    ensures Refused(later, k)
  {
    hide Keeps, RowMoves, DepsCompleted, Build, Preserves, Progress;
    StepPreserves(run, auth, later, next, drawn);
    PreservesConfig(run, later);
    CustodyStays(run, later, k);
    assert RowMoves(run, later.db, PlanRow(run, k).work);
    RefusedIsPlanned(run, auth, later, k);
  }

  // ----- over any number of steps -------------------------------------------------------------------------

  /** What a run keeps on top of its invariant. */
  ghost predicate LoopOk(run: Run) {
    Behind(run) && BlockedOk(run)
  }

  lemma StepLoop(run: Run, auth: Authority, later: Run, drawn: set<Id>)
    requires RunInv(run, auth) && LoopOk(run) && Changes(run, later, drawn)
    ensures LoopOk(later)
  {
    hide Keeps, Behind, BlockedOk, Changes, ValidPlan, ValidPolicy, Sane;
    InvHealthy(run, auth);
    BehindKeeps(run, later, drawn);
    BlockedKeeps(run, later, drawn);
  }

  /** Refused with whatever revision input, and never passed. A revision without an input waits. */
  ghost predicate StuckAt(run: Run, k: nat) {
    && Refused(run, k)
    && (forall revisionInput :: Awaits(run, k, revisionInput) || Unpromptable(run, k, revisionInput))
    && (Driving(run.pc) ==> PcRow(run.pc) <= k)
  }

  /** Whatever is tried, whenever and with whatever revision input: a refused row is never reserved, dispatched or
      skipped, and no drive gets past it. */
  lemma {:induction false} RefusalIsForGood(run: Run, auth: Authority, acts: seq<Action>, later: Run, next: Authority,
                                            k: nat)
    requires RunInv(run, auth) && Sound(auth) && LoopOk(run) && Refused(run, k)
    requires Play(run, auth, acts) == Some((later, next))
    ensures StuckAt(later, k) && LoopOk(later)
  {
    hide Keeps, Sound, Step, LoopOk, Refused, StuckAt, Changes, Leads;
    if acts != [] {
      var r, a := PlaySplits(run, auth, acts, later, next);
      RefusalIsForGood(run, auth, acts[..|acts| - 1], r, a, k);
      StuckIsRefused(r, k);
      PlayKeeps(run, auth, acts[..|acts| - 1], r, a);
      var act := acts[|acts| - 1];
      StepKeeps(r, a, act, later, next);
      RefusedKeeps(r, a, later, next, Drawn(act), k);
      StepLoop(r, a, later, Drawn(act));
    }
    PlayKeeps(run, auth, acts, later, next);
    RefusedIsStuck(later, next, k);
  }

  lemma StuckIsRefused(run: Run, k: nat)
    requires StuckAt(run, k)
    ensures Refused(run, k)
  {
  }

  lemma RefusedIsStuck(run: Run, auth: Authority, k: nat)
    requires RunInv(run, auth) && Refused(run, k) && LoopOk(run)
    ensures StuckAt(run, k)
  {
    hide Keeps, BlockedOk, DepsCompleted, Build, InState;
    if Driving(run.pc) && PcRow(run.pc) > k {
      BehindIsSettled(run, k);
    }
    PlannedExternal(run, auth, k);
  }

  lemma BehindIsSettled(run: Run, k: nat)
    requires Behind(run) && Driving(run.pc) && k < PcRow(run.pc)
    ensures !InState(run.db, PlanRow(run, k).work, Planned)
  {
    assert Settled(run.db, run.cfg.plan[k].work);
  }
}
