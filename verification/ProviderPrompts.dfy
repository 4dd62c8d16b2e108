/**
 The messages a provider is sent for each kind of row, and exactly what keeps a due
 review or revision from having any. A writer's success is accepted whatever its text
 is, so a text that is no draft leaves its review due for ever.
 */
module ProviderPrompts {
  import opened Wrappers
  import opened Plans
  import opened LedgerTables
  import opened ProviderRun
  import opened ProviderRows
  import ReplayContract
  import Texts = Text

  // ----- the messages of a row ---------------------------------------------------------------------

  /** Reads a draft out of an output: its title, meta description and body. */
  type Parser = string -> Option<ReplayContract.Draft>

  /** Whether the encoded prompt is within the policy's input limit. */
  type Limit = Prompt -> bool

  /** The text of an object starts with a brace. */
  ghost predicate ParsesObjects(parse: Parser) {
    forall text :: parse(text).Some? ==> !StartsNoObject(text)
  }

  predicate StartsNoObject(text: string) {
    Texts.Strip(text) == "" || Texts.Strip(text)[0] != '{'
  }

  function OutputText(env: Envelope, d: Id): string {
    if d in env.outputs then env.outputs[d].content else ""
  }

  /** A review shows the draft its one dependency wrote, in place of the exported one. */
  function ReviewMessages(row: Row, env: Envelope, parse: Parser): Option<seq<ReplayContract.Message>> {
    if |row.deps| != 1 || |env.input.drafts| != 1 then None
    else
      match parse(OutputText(env, row.deps[0]))
      case None => None
      case Some(draft) =>
        match ReplayContract.ReviewerMessages(env.input.messages, env.input.drafts[0], draft)
        case Err(_) => None
        case Ok(messages) => Some(messages)
  }

  /** A revision sends the rendered review replay, bound to this case and to these two outputs. */
  function RevisionMessages(row: Row, env: Envelope): Option<seq<ReplayContract.Message>> {
    if env.external.None? || |row.deps| != 2 then None
    else
      var replay := env.external.value;
      if !replay.pinned || replay.caseId != row.caseId || replay.draft.content != OutputText(env, row.deps[0])
         || replay.review.content != OutputText(env, row.deps[1]) || !ReplayContract.NativeMessages(replay.messages)
         || env.input.messages == [] || replay.messages[0].content != env.input.messages[0].content
      then None else Some(replay.messages)
  }

  function RowMessages(row: Row, env: Envelope, parse: Parser): Option<seq<ReplayContract.Message>> {
    match row.role
    case Writer => Some(env.input.messages)
    case Reviewer => ReviewMessages(row, env, parse)
    case Revision => RevisionMessages(row, env)
  }

  function WorkPrompt(row: Row, env: Envelope, parse: Parser, fits: Limit): Option<Prompt> {
    match RowMessages(row, env, parse)
    case None => None
    case Some(messages) =>
      if !ReplayContract.NativeMessages(messages) || !fits(Prompt(messages, row.role)) then None
      else Some(Prompt(messages, row.role))
  }

  /** The run's prompts are these. */
  ghost predicate PromptsBy(cfg: Config, parse: Parser, fits: Limit) {
    forall row, env :: cfg.prompt(row, env) == WorkPrompt(row, env, parse, fits)
  }

  // ----- what a prompt says ---------------------------------------------------------------------------

  /** Two messages a run could be given for a revision: a prompt of their own, opened by the exported instruction. */
  predicate Opens(messages: seq<ReplayContract.Message>, input: Packet) {
    && ReplayContract.NativeMessages(messages) && input.messages != []
    && messages[0].content == input.messages[0].content
  }

  /** The exported review prompt as its template, filled with the draft that the review's subject is. */
  predicate ReviewSays(row: Row, env: Envelope, parse: Parser, messages: seq<ReplayContract.Message>) {
    && |row.deps| == 1 && |env.input.drafts| == 1 && ReplayContract.NativeMessages(env.input.messages)
    && var text, exported := env.input.messages[1].content, env.input.drafts[0];
      && ReplayContract.Cuts(text, exported).Some?
      && match parse(OutputText(env, row.deps[0]))
         case None => false
         case Some(draft) =>
           var t := ReplayContract.TemplateOf(text, exported);
           messages == [env.input.messages[0], ReplayContract.Message("user",
             ReplayContract.Render(t, draft.title, ReplayContract.Shown(draft.meta), draft.body))]
  }

  /** The review replay's own messages; the replay is of this case, of the draft and the review that the two
      dependencies wrote, and opened by the exported instruction. */
  predicate RevisionSays(row: Row, env: Envelope, messages: seq<ReplayContract.Message>) {
    && |row.deps| == 2 && Opens(messages, env.input)
    && match env.external
       case None => false
       case Some(replay) =>
         && replay.pinned && replay.caseId == row.caseId && replay.messages == messages
         && replay.draft == Text(OutputText(env, row.deps[0])) && replay.review == Text(OutputText(env, row.deps[1]))
  }

  /** A request has exactly this prompt, for its own role and within the limit. */
  lemma PromptIsExactly(row: Row, env: Envelope, parse: Parser, fits: Limit, p: Prompt)
    ensures WorkPrompt(row, env, parse, fits) == Some(p) <==>
      && p.role == row.role && ReplayContract.NativeMessages(p.messages) && fits(p)
      && match row.role
         case Writer => p.messages == env.input.messages
         case Reviewer => ReviewSays(row, env, parse, p.messages)
         case Revision => RevisionSays(row, env, p.messages)
  {
    hide ReplayContract.Cuts, ReplayContract.Splice, ReplayContract.Render, ReplayContract.TemplateOf,
      ReplayContract.Shown;
    if row.role == Reviewer && |row.deps| == 1 && |env.input.drafts| == 1
      && ReplayContract.NativeMessages(env.input.messages) && parse(OutputText(env, row.deps[0])).Some?
    {
      var text, exported := env.input.messages[1].content, env.input.drafts[0];
      if ReplayContract.Cuts(text, exported).Some? {
        ReplayContract.SpliceRenders(text, exported, parse(OutputText(env, row.deps[0])).value);
      } else {
        NothingToSplice(text, exported, parse(OutputText(env, row.deps[0])).value);
      }
    }
  }

  lemma NothingToSplice(text: string, exported: string, draft: ReplayContract.Draft)
    requires ReplayContract.Cuts(text, exported).None?
    ensures ReplayContract.Splice(text, exported, draft).Err?
  {
    hide ReplayContract.Cuts;
  }

  // ----- reviews that cannot be asked for ------------------------------------------------------------

  /** The output the review of row `k` is about. */
  function Subject(run: Run, k: nat): string {
    if |PlanRow(run, k).deps| != 1 then ""
    else OutputOf(run.objects, ResultDigest(run.db, PlanRow(run, k).deps[0])).content
  }

  /** A due review has a prompt exactly when the output is a draft, the exported prompt has its anchors in place, and
      the limit is kept. */
  lemma ReviewIsRefusedExactly(run: Run, k: nat, parse: Parser, fits: Limit)
    requires PromptsBy(run.cfg, parse, fits) && k < |run.cfg.plan| && PlanRow(run, k).role == Reviewer
    requires |PlanRow(run, k).deps| == 1 && HasInput(run, PlanRow(run, k))
    requires InState(run.db, PlanRow(run, k).work, Planned) && DepsCompleted(run.db, PlanRow(run, k).work)
    ensures var row := PlanRow(run, k); var input := run.cfg.inputs[(row.caseId, row.role)];
      Refused(run, k) <==>
        !(&& |input.drafts| == 1 && parse(Subject(run, k)).Some?
          && ReplayContract.NativeMessages(input.messages)
          && ReplayContract.Cuts(input.messages[1].content, input.drafts[0]).Some?
          && fits(Prompt(Shown(input, parse(Subject(run, k)).value), Reviewer)))
  {
    hide DepsCompleted, ReplayContract.Cuts, Current, ResultDigest;
    var row := PlanRow(run, k);
    var env := Build(run, row, None);
    assert OutputText(env, row.deps[0]) == Subject(run, k);
  }

  /** The exported review prompt with a draft put in. */
  function Shown(input: Packet, draft: ReplayContract.Draft): seq<ReplayContract.Message> {
    if |input.drafts| != 1 then []
    else
      match ReplayContract.ReviewerMessages(input.messages, input.drafts[0], draft)
      case Err(_) => []
      case Ok(messages) => messages
  }

  /** A due revision has a prompt with some review replay exactly when it has its two dependencies and some messages
      opened by the exported instruction keep the limit. */
  lemma RevisionIsRefusedExactly(run: Run, k: nat, parse: Parser, fits: Limit)
    requires PromptsBy(run.cfg, parse, fits) && k < |run.cfg.plan| && PlanRow(run, k).role == Revision
    requires HasInput(run, PlanRow(run, k))
    requires InState(run.db, PlanRow(run, k).work, Planned) && DepsCompleted(run.db, PlanRow(run, k).work)
    ensures var row := PlanRow(run, k); var input := run.cfg.inputs[(row.caseId, row.role)];
      Refused(run, k) <==>
        !(|row.deps| == 2 && exists messages :: Opens(messages, input) && fits(Prompt(messages, Revision)))
  {
    hide DepsCompleted, Current, ResultDigest, InState;
    var row := PlanRow(run, k);
    var input := run.cfg.inputs[(row.caseId, row.role)];
    forall replay: External | run.cfg.prompt(row, Build(run, row, Some(replay))).Some?
      ensures |row.deps| == 2 && Opens(replay.messages, input) && fits(Prompt(replay.messages, Revision))
    {
    }
    if messages :| |row.deps| == 2 && Opens(messages, input) && fits(Prompt(messages, Revision)) {
      var env := Build(run, row, None);
      var replay := External(row.caseId, true, Text(OutputText(env, row.deps[0])), Text(OutputText(env, row.deps[1])),
                             messages);
      assert run.cfg.prompt(row, Build(run, row, Some(replay))).Some?;
    }
  }

  /** Any output that is no draft, though a verified success, leaves its review refused for good. */
  lemma NoDraftNoReview(run: Run, k: nat, parse: Parser, fits: Limit)
    requires PromptsBy(run.cfg, parse, fits) && ParsesObjects(parse)
    requires k < |run.cfg.plan| && PlanRow(run, k).role == Reviewer && |PlanRow(run, k).deps| == 1
    requires HasInput(run, PlanRow(run, k)) && DepsCompleted(run.db, PlanRow(run, k).work)
    requires InState(run.db, PlanRow(run, k).work, Planned)
    requires StartsNoObject(Subject(run, k))
    ensures Refused(run, k)
  {
    hide DepsCompleted, ReplayContract.ReviewerMessages, Current, ResultDigest, StartsNoObject;
    var row := PlanRow(run, k);
    var env := Build(run, row, None);
    assert OutputText(env, row.deps[0]) == Subject(run, k);
    assert parse(Subject(run, k)).None?;
  }
}
