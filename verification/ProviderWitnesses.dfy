/**
 Runs that get to the states the other modules speak of: a verified success whose
 review is refused for good, a torn receipt, and a review blocked before its writer's
 success was read back. Each starts fresh, in a campaign that only tracks.
 */
module ProviderWitnesses {
  import opened Wrappers
  import opened Plans
  import opened LedgerTables
  import opened LedgerOps
  import opened LedgerMoves
  import opened LedgerRuns
  import opened Campaign
  import opened Policies
  import opened ProviderRun
  import opened ProviderInvariant
  import opened ProviderChanges
  import opened ProviderSafety
  import opened ProviderReport
  import opened ProviderRows
  import opened ProviderWorld
  import opened ProviderReplies
  import opened ProviderDriver
  import opened ProviderPrompts
  import opened ProviderRecovery
  import ReplayContract

  /** A writer's row, whose prompt can be sent, and its review; the run only tracks. */
  ghost predicate WriterAndReview(cfg: Config, parse: Parser, fits: Limit) {
    && ValidConfig(cfg) && cfg.policy.caps.None? && cfg.policy.provider == OpenAI && PromptsBy(cfg, parse, fits)
    && |cfg.plan| == 2 && cfg.plan[0].role == Writer && cfg.plan[0].deps == []
    && cfg.plan[1].role == Reviewer && cfg.plan[1].deps == [cfg.plan[0].work]
    && (cfg.plan[1].caseId, Reviewer) in cfg.inputs && (cfg.plan[0].caseId, Writer) in cfg.inputs
    && var messages := cfg.inputs[(cfg.plan[0].caseId, Writer)].messages;
      ReplayContract.NativeMessages(messages) && fits(Prompt(messages, Writer))
  }

  /** The places of the two rows in the plan. */
  const WRITING: nat := 0

  const REVIEWING: nat := 1

  const TRACKING: Authority := Authority(true, map[])

  /** Where some steps lead from the fresh run. */
  ghost predicate Played(cfg: Config, acts: seq<Action>, run: Run, auth: Authority) {
    Play(FreshRun(cfg), TRACKING, acts) == Some((run, auth)) && run.cfg == cfg && RunInv(run, auth) && Sound(auth)
  }

  lemma FreshIsPlanned(cfg: Config, k: nat)
    requires ValidConfig(cfg) && k < |cfg.plan|
    ensures InState(FreshRun(cfg).db, PlanRow(FreshRun(cfg), k).work, Planned)
  {
    hide ValidConfig, Created, Keeps;
    var run := FreshRun(cfg);
    FreshRunInv(cfg, TRACKING);
    FreshState(cfg.plan);
    PlanRowHasState(run, TRACKING, k);
    assert InState(run.db, PlanRow(run, k).work, RowOf(run.db, PlanRow(run, k).work).state);
  }

  /** The writer's row is due, and its request has its prompt. */
  lemma WriterIsDue(cfg: Config, parse: Parser, fits: Limit)
    requires WriterAndReview(cfg, parse, fits)
    ensures Callable(FreshRun(cfg).(pc := At(WRITING)), WRITING, None)
  {
    hide Created, Current, ValidPolicy;
    var run := FreshRun(cfg).(pc := At(0));
    FreshIsPlanned(cfg, 0);
    FreshState(cfg.plan);
    DepsOfRow(cfg.plan, 0);
  }

  /** The writer's call, whatever the provider replies. */
  lemma Answers(cfg: Config, parse: Parser, fits: Limit, reply: Reply)
    returns (acts: seq<Action>, stored: Run, auth: Authority)
    requires WriterAndReview(cfg, parse, fits)
    ensures Reached(FreshRun(cfg), TRACKING, acts, PlanRow(FreshRun(cfg), WRITING).work, stored, auth)
    ensures stored.pc.Stored? && PcRow(stored.pc) == WRITING && Carries(cfg, PcResult(stored.pc), reply)
  {
    hide Play, Keeps, Sound, Leads, Stranded, ValidConfig, PromptsBy, Created, Recover, Reports, Callable, Estimate,
      Carries, Reportable, Changes, Flows, InState;
    var run, w := FreshRun(cfg), PlanRow(FreshRun(cfg), WRITING).work;
    FreshRunInv(cfg, TRACKING);
    FreshState(cfg.plan);
    assert Sound(TRACKING) by { EmptyIsSound(); }
    Starts(run, TRACKING, w);
    ResumeTurns(run, TRACKING);
    var begun := run.(pc := At(0));
    Goes(run, TRACKING, [], w, run, TRACKING, Resume, begun, TRACKING);
    WriterIsDue(cfg, parse, fits);
    var acts1, funded, next := Secures(run, TRACKING, [] + [Resume], w, begun, TRACKING);
    auth := next;
    acts, stored := Serves(run, TRACKING, acts1, w, funded, auth, reply);
  }

  lemma EmptyIsSound()
    ensures Sound(TRACKING)
  {
  }

  /** As long as only the writer's row changed, its review is planned, and asks for the writer's output. */
  lemma ReviewStays(cfg: Config, parse: Parser, fits: Limit, run: Run)
    requires WriterAndReview(cfg, parse, fits) && Aside(FreshRun(cfg), run, PlanRow(FreshRun(cfg), WRITING).work)
    requires run.db.plan == cfg.plan
    ensures InState(run.db, PlanRow(run, REVIEWING).work, Planned)
    ensures PlanRow(run, REVIEWING).work != PlanRow(run, WRITING).work
    ensures HasInput(run, PlanRow(run, REVIEWING))
    ensures DepsCompleted(run.db, PlanRow(run, REVIEWING).work) <==>
      InState(run.db, PlanRow(run, WRITING).work, Completed)
  {
    hide Created, Current, ValidPolicy, Stranded, PromptsBy;
    FreshIsPlanned(cfg, 1);
    DepsOfRow(cfg.plan, 1);
    assert cfg.plan[0].work != cfg.plan[1].work;
    assert cfg.plan[0].work in cfg.plan[1].deps;
  }

  /** The writer answers with a text that is no draft: it is recorded as a verified success, and its review is
      refused in every continuation. */
  lemma NonDraftStrandsReview(cfg: Config, parse: Parser, fits: Limit)
    requires WriterAndReview(cfg, parse, fits) && ParsesObjects(parse)
    ensures exists acts, run, auth ::
      Played(cfg, acts, run, auth) && InState(run.db, PlanRow(run, WRITING).work, Completed) && Refused(run, REVIEWING)
      && OutputOf(run.objects, ResultDigest(run.db, PlanRow(run, WRITING).work)) == Text("hello")
  {
    hide Play, Keeps, Sound, Created, InState, ParsesObjects, PromptsBy, Refused, ResultDigest, ValidConfig,
      Stranded, Sane;
    var reply := Reply(Success, Text("hello"), FromOpenAI(None), Some(Native(0)), false);
    var acts1, stored, auth := Answers(cfg, parse, fits, reply);
    var acts, run := Succeeds(FreshRun(cfg), TRACKING, acts1, PlanRow(FreshRun(cfg), WRITING).work, stored, auth);
    InvHealthy(run, auth);
    ReviewStays(cfg, parse, fits, run);
    HelloIsNoDraft();
    NoDraftNoReview(run, 1, parse, fits);
    assert Played(cfg, acts, run, auth);
  }

  lemma HelloIsNoDraft()
    ensures StartsNoObject("hello")
  {
    assert "hello"[0] == 'h' && "hello"[4] == 'o';
  }

  /** The writer's outcome stays uncertain and the process dies while its receipt is written: the run is stranded. */
  lemma TornIsReachable(cfg: Config, parse: Parser, fits: Limit)
    requires WriterAndReview(cfg, parse, fits)
    ensures exists acts, run, auth :: Played(cfg, acts, run, auth) && run.pc == Idle && !NoneTorn(run.receipts)
  {
    hide Play, Keeps, Sound, Leads, Created, PromptsBy, ValidConfig, DoSettle, Stranded, Changes, Flows, ReceiptsOk;
    var run0, w := FreshRun(cfg), PlanRow(FreshRun(cfg), WRITING).work;
    var acts, stored, auth := Answers(cfg, parse, fits, Reply(CallUncertain, Text(""), FromOpenAI(None), None, false));
    SettleTurns(stored, auth);
    var created := Done(DoSettle(stored), stored);
    Goes(run0, TRACKING, acts, w, stored, auth, Settle, created, auth);
    InvReceipts(created, auth);
    StopTurns(created, auth, Torn);
    var torn := DoStop(created, Torn);
    Goes(run0, TRACKING, acts + [Settle], w, created, auth, Stop(Torn), torn, auth);
    assert Played(cfg, acts + [Settle] + [Stop(Torn)], torn, auth);
  }

  // ----- a success that comes too late ----------------------------------------------------------------

  lemma FilledIsRestorable(run: Run, auth: Authority)
    requires RunInv(run, auth) && run.pc.Opened? && Restoration(run.cfg, PcResult(run.pc)).Some?
    ensures Restorable(Done(DoFill(run), run), PcAttempt(run.pc))
  {
    hide Keeps, Restoration, Bound, Estimate, BuiltOk;
    InvCarried(run, auth);
  }

  lemma ConcludedIsRestorable(run: Run, auth: Authority)
    requires RunInv(run, auth) && run.pc.Receipted? && PcResult(run.pc).status == CallUncertain
    requires Restorable(run, PcAttempt(run.pc))
    ensures var later, w := Done(DoConclude(run), run), PlanRow(run, PcRow(run.pc)).work;
      Restorable(later, PcAttempt(run.pc)) && RowOf(later.db, w).attempt == Some(PcAttempt(run.pc))
  {
    hide Keeps, Restoration, Recover, Sane;
    PlaceSays(run, auth);
    var w := PlanRow(run, PcRow(run.pc)).work;
    RowRequestIs(run, auth, w);
    SameWork(run.db, PcAttempt(run.pc), AttemptOn(run.db, w));
    RecoverAgrees(run.db);
  }

  /** From a stored uncertain outcome that restores to the next row, its own row uncertain with its receipt. */
  lemma StaysUncertain(start: Run, auth0: Authority, acts: seq<Action>, w: Id, run: Run, auth: Authority)
    returns (more: seq<Action>, later: Run)
    requires Reached(start, auth0, acts, w, run, auth) && PlanRow(run, PcRow(run.pc)).work == w
    requires run.pc.Stored? && PcResult(run.pc).status == CallUncertain && Restoration(run.cfg, PcResult(run.pc)).Some?
    ensures Reached(start, auth0, more, w, later, auth) && later.pc == Onward(run.pc)
    ensures UncertainAs(later.db, w, PcAttempt(run.pc)) && Restorable(later, PcAttempt(run.pc))
  {
    hide Play, Keeps, Sound, Leads, Aside, DoSettle, DoFill, DoConclude, Restorable, InState, Restoration, Changes,
      Flows;
    SettleTurns(run, auth);
    var created := Done(DoSettle(run), run);
    Goes(start, auth0, acts, w, run, auth, Settle, created, auth);
    FillTurns(created, auth);
    FilledIsRestorable(created, auth);
    var receipted := Done(DoFill(created), created);
    Goes(start, auth0, acts + [Settle], w, created, auth, Fill, receipted, auth);
    ConcludeTurns(receipted, auth);
    ConcludedIsRestorable(receipted, auth);
    later, more := Done(DoConclude(receipted), receipted), acts + [Settle] + [Fill] + [Conclude];
    Goes(start, auth0, acts + [Settle] + [Fill], w, receipted, auth, Conclude, later, auth);
  }

  /** A planned row with its input and a missing dependency is blocked by its visit. */
  lemma VisitBlocks(run: Run, later: Run, drawn: set<Id>)
    requires Changes(run, later, drawn) && run.pc.At? && InState(run.db, PlanRow(run, PcRow(run.pc)).work, Planned)
    requires Settled(later.db, PlanRow(run, PcRow(run.pc)).work) && HasInput(run, PlanRow(run, PcRow(run.pc)))
    ensures InState(later.db, PlanRow(run, PcRow(run.pc)).work, Blocked)
  {
    hide KeysFrom, Progress;
    assert RowMoves(run, later.db, PlanRow(run, PcRow(run.pc)).work);
  }

  /** The row at hand is reached, blocked, and the process stops; an uncertain row before it is as it was. */
  lemma Blocks(run: Run, auth: Authority, v: Id, w: Id) returns (acts: seq<Action>, later: Run)
    requires RunInv(run, auth) && Sound(auth) && run.pc.At? && PcRow(run.pc) < |run.cfg.plan| && v != w
    requires w == PlanRow(run, PcRow(run.pc)).work && InState(run.db, w, Planned)
    requires HasInput(run, PlanRow(run, PcRow(run.pc))) && !DepsCompleted(run.db, w)
    requires InState(run.db, v, Uncertain) && Restorable(run, AttemptOn(run.db, v))
    ensures Reached(run, auth, acts, w, later, auth) && later.pc == Idle && NoneTorn(later.receipts)
    ensures Current(later.db, v) == Current(run.db, v) && Restorable(later, AttemptOn(run.db, v))
    ensures InState(later.db, w, Blocked)
  {
    hide Play, Keeps, Sound, Leads, DoVisit, Restorable, NoneTorn, DepsCompleted, Stranded, Changes, Flows, Current;
    Starts(run, auth, w);
    VisitTurns(run, auth);
    var blocked := Done(DoVisit(run), run);
    Goes(run, auth, [], w, run, auth, Visit, blocked, auth);
    VisitBlocks(run, blocked, Drawn(Visit));
    StrandedSame(run, auth, blocked, Drawn(Visit), v);
    NothingTorn(blocked, auth);
    StopTurns(blocked, auth, Torn);
    later, acts := DoStop(blocked, Torn), [] + [Visit] + [Stop(Torn)];
    Goes(run, auth, [] + [Visit], w, blocked, auth, Stop(Torn), later, auth);
    StrandedSame(blocked, auth, later, Drawn(Stop(Torn)), v);
  }

  /** A run in which the review was blocked behind the writer's uncertain call and the writer's success was read back
      from its receipt after that: the review stays blocked with its dependency completed. */
  lemma BlockedThenRecovered(cfg: Config, parse: Parser, fits: Limit, native: Native)
    requires WriterAndReview(cfg, parse, fits) && Recovers(cfg, native)
    ensures exists acts, run, auth ::
      Played(cfg, acts, run, auth) && InState(run.db, PlanRow(run, REVIEWING).work, Blocked)
      && InState(run.db, PlanRow(run, WRITING).work, Completed)
  {
    hide Play, Keeps, Sound, Created, Current, PromptsBy, ValidConfig, Restorable, NoneTorn, Stranded, Estimate, Sane,
      DepsCompleted;
    var run0, w := FreshRun(cfg), PlanRow(FreshRun(cfg), WRITING).work;
    var reply := Reply(CallUncertain, Text(""), FromOpenAI(None), Some(native), false);
    assert Estimate(reply.usage, cfg.policy).Ok? by { SilenceIsAccepted(cfg.policy); }
    var acts1, stored, auth := Answers(cfg, parse, fits, reply);
    var acts2, uncertain := StaysUncertain(run0, TRACKING, acts1, w, stored, auth);
    InvHealthy(uncertain, auth);
    ReviewStays(cfg, parse, fits, uncertain);
    var acts3, blocked := Blocks(uncertain, auth, w, PlanRow(uncertain, REVIEWING).work);
    var acts4, run := RestoreCompletes(blocked, auth, w, PcAttempt(stored.pc));
    PlayJoins(run0, TRACKING, acts2, uncertain, auth, acts3, blocked, auth);
    PlayJoins(run0, TRACKING, acts2 + acts3, blocked, auth, acts4, run, auth);
    assert Played(cfg, acts2 + acts3 + acts4, run, auth);
  }

  /** The answer reads back as a success whose usage verifies. */
  predicate Recovers(cfg: Config, native: Native) {
    match cfg.recover(native)
    case None => false
    case Some((_, usage)) => Estimate(usage, cfg.policy).Ok?
  }

  lemma SilenceIsAccepted(p: Policy)
    ensures p.provider == OpenAI ==> Estimate(FromOpenAI(None), p).Ok?
  {
  }
}
