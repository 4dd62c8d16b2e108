/** Reviewer decisions against a labelled cohort: effective decisions, their counts and the rates over them. */
module Decisions {
  import opened Wrappers
  import opened Scoring
  import opened Sorting
  import opened Tally
  import opened Text

  datatype Effective = Passes | Edits | Blocks | Abstains | MeasurementError

  function RequiredIds(r: Rubric): set<string> {
    set k | k in r.checks && k.applicability.IsRequired? && !k.waived :: k.id
  }

  predicate Reports(r: Review, id: string, state: CheckState) {
    ReviewCheck(id, state) in r.checks
  }

  /** Some unit holds more than white space. */
  predicate HasContent(c: ScoreCase) {
    exists unit | unit in c.texts :: Strip(c.texts[unit]) != []
  }

  predicate Material(f: Finding) {
    f.kind.Defect? && (f.severity.Major? || f.severity.Critical?)
  }

  function Assess(c: ScoreCase): Effective {
    if c.review.None? || c.review.value.decision.Error? then MeasurementError
    else
      var review := c.review.value;
      if !HasContent(c) then MeasurementError
      else if exists k | k in review.checks :: k.state.Invalid? then MeasurementError
      else if exists f | f in review.findings :: Misplaced(f, c.texts) then MeasurementError
      else if review.decision.Abstain? then Abstains
      else
        var required := RequiredIds(c.rubric);
        if required == {} || exists id | id in required :: !Reports(review, id, Passed) && !Reports(review, id, Failed)
        then MeasurementError
        else if review.decision.Pass? && (
            (exists id | id in required :: Reports(review, id, Failed))
              || (exists f | f in review.findings :: Material(f)))
        then MeasurementError
        else if review.decision.Pass? then Passes
        else if review.decision.Edit? then Edits
        else Blocks
  }

  /** The reviewer's own words for a decision it is credited with. */
  function Spoken(e: Effective): Option<Verdict> {
    match e
    case Passes => Some(Pass)
    case Edits => Some(Edit)
    case Blocks => Some(Block)
    case Abstains => Some(Abstain)
    case MeasurementError => None
  }

  function Raw(c: ScoreCase): Option<Verdict> {
    if c.review.Some? then Some(c.review.value.decision) else None
  }

  /** An assessment never credits a decision the reviewer did not make. */
  lemma AssessIsRawOrError(c: ScoreCase)
    ensures Assess(c) == MeasurementError || Spoken(Assess(c)) == Raw(c)
  {
  }

  /** A character other than white space. */
  predicate Shows(text: string, i: nat) {
    i < |text| && !IsSpace(text[i])
  }

  lemma ContentShows(c: ScoreCase)
    ensures HasContent(c) <==> exists unit, i: nat :: unit in c.texts && Shows(c.texts[unit], i)
  {
    hide Strip;
    forall unit | unit in c.texts ensures Strip(c.texts[unit]) != [] <==> exists i: nat :: Shows(c.texts[unit], i) {
      StripShows(c.texts[unit]);
    }
  }

  lemma StripShows(text: string)
    ensures Strip(text) != [] <==> exists i: nat :: Shows(text, i)
  {
    hide Strip;
    var left, right := StripMeans(text);
    if Strip(text) != [] {
      assert text[|left|] == Strip(text)[0];
      assert Shows(text, |left|);
    }
  }

  /** A review whose evidence can be used at all: present, not an error, on real content, with valid checks and
      spans. */
  ghost predicate Usable(c: ScoreCase) {
    && c.review.Some? && !c.review.value.decision.Error?
    && (exists unit, i: nat :: unit in c.texts && Shows(c.texts[unit], i))
    && (forall k | k in c.review.value.checks :: !k.state.Invalid?)
    && (forall f | f in c.review.value.findings && f.span.Some? :: SpanMatches(f.span.value, c.texts))
  }

  /** Every required check that is not waived has the state, or one of the states, asked for; and there is one. */
  ghost predicate Covered(c: ScoreCase, failuresToo: bool)
    requires c.review.Some?
  {
    && (exists k | k in c.rubric.checks :: k.applicability.IsRequired? && !k.waived)
    && forall k | k in c.rubric.checks && k.applicability.IsRequired? && !k.waived ::
         ReviewCheck(k.id, Passed) in c.review.value.checks
         || (failuresToo && ReviewCheck(k.id, Failed) in c.review.value.checks)
  }

  lemma CoveredIds(c: ScoreCase, failuresToo: bool)
    requires c.review.Some?
    ensures Covered(c, failuresToo) <==>
      && RequiredIds(c.rubric) != {}
      && forall id | id in RequiredIds(c.rubric) ::
           Reports(c.review.value, id, Passed) || (failuresToo && Reports(c.review.value, id, Failed))
  {
    forall k | k in c.rubric.checks && k.applicability.IsRequired? && !k.waived ensures k.id in RequiredIds(c.rubric) {
    }
  }

  ghost predicate NothingMaterial(c: ScoreCase)
    requires c.review.Some?
  {
    forall f | f in c.review.value.findings && f.kind.Defect? :: !f.severity.Major? && !f.severity.Critical?
  }

  /** What each credited decision stands for: a pass has every required check passed and no material defect. */
  lemma AssessMeans(c: ScoreCase)
    requires ValidCase(c)
    ensures Assess(c).Passes? <==> Usable(c) && c.review.value.decision.Pass? && Covered(c, false) && NothingMaterial(c)
    ensures Assess(c).Edits? <==> Usable(c) && c.review.value.decision.Edit? && Covered(c, true)
    ensures Assess(c).Blocks? <==> Usable(c) && c.review.value.decision.Block? && Covered(c, true)
    ensures Assess(c).Abstains? <==> Usable(c) && c.review.value.decision.Abstain?
  {
    hide SpanMatches, HasContent, RequiredIds, Covered;
    ContentShows(c);
    if c.review.Some? {
      CoveredIds(c, false);
      CoveredIds(c, true);
      forall id ensures !(Reports(c.review.value, id, Passed) && Reports(c.review.value, id, Failed)) {
      }
    }
  }

  // ----- one cohort -----------------------------------------------------------------------

  datatype Cohort = Cohort(rubric: (string, string), reviewer: Option<Producer>, scope: Scope,
                           producer: Option<Producer>,
                           basis: Option<Basis>)

  function Reviewer(c: ScoreCase): Option<Producer> {
    if c.review.Some? then Some(c.review.value.producer) else None
  }

  function CohortOf(c: ScoreCase): Cohort {
    Cohort((c.rubric.id, c.rubric.version), Reviewer(c), ReferenceScope(c.reference.provenance),
           c.reference.provenance.producer, c.reference.provenance.basis)
  }

  /** Cases are of one cohort when rubric and version, reviewer, and the reference's scope, producer and basis agree. */
  lemma CohortMeans(c: ScoreCase, d: ScoreCase)
    ensures CohortOf(c) == CohortOf(d) <==>
      && c.rubric.id == d.rubric.id && c.rubric.version == d.rubric.version && Reviewer(c) == Reviewer(d)
      && ReferenceScope(c.reference.provenance) == ReferenceScope(d.reference.provenance)
      && c.reference.provenance.producer == d.reference.provenance.producer
      && c.reference.provenance.basis == d.reference.provenance.basis
  {
  }

  function Observation(c: ScoreCase): (string, Rubric, Option<Producer>) {
    (c.evidence, c.rubric, Reviewer(c))
  }

  predicate Scorable(cases: seq<ScoreCase>) {
    && (forall c | c in cases :: ValidCase(c))
    && (forall i, j | 0 <= i < j < |cases| :: cases[i].id != cases[j].id)
    && (forall i, j | 0 <= i < j < |cases| :: CohortOf(cases[i]) == CohortOf(cases[j]))
    && (forall i, j | 0 <= i < j < |cases| :: Observation(cases[i]) != Observation(cases[j]))
  }

  function Gold(c: ScoreCase): Label {
    if ReferenceScope(c.reference.provenance).Unassessed? then Unknown else c.reference.acceptability
  }

  function PassedWith(known: bool): ScoreCase -> bool {
    (c: ScoreCase) => Assess(c).Passes? && (known <==> !Gold(c).Unknown?)
  }

  predicate InvalidPass(c: ScoreCase) { Raw(c) == Some(Pass) && Assess(c).MeasurementError? }

  predicate FalsePass(c: ScoreCase) { Assess(c).Passes? && Gold(c).Unacceptable? }

  predicate FalseBlock(c: ScoreCase) { (Assess(c).Edits? || Assess(c).Blocks?) && Gold(c).Acceptable? }

  const EFFECTIVES: set<Effective> := {Passes, Edits, Blocks, Abstains, MeasurementError}
  const RAWS: set<Option<Verdict>> := {Some(Pass), Some(Edit), Some(Block), Some(Abstain), Some(Error), None}
  const LABELS: set<Label> := {Acceptable, Unacceptable, Unknown}

  datatype Counts = Counts(
    decisions: map<Effective, nat>, raw: map<Option<Verdict>, nat>, gold: map<Label, nat>,
    passedKnown: nat, passedUnknown: nat, invalidPasses: nat, falsePasses: nat, falseBlocks: nat)

  function CountsOf(cases: seq<ScoreCase>): Counts {
    Counts(TallyBy(cases, Assess, EFFECTIVES),
           TallyBy(cases, Raw, RAWS),
           TallyBy(cases, Gold, LABELS),
           Number(cases, PassedWith(true)), Number(cases, PassedWith(false)),
           Number(cases, InvalidPass), Number(cases, FalsePass), Number(cases, FalseBlock))
  }

  datatype Report = Report(
    scope: Scope, cases: nat, families: nat, counts: Counts, falsePass: Rate, falseBlock: Rate,
    acceptedRisk: Rate, coverage: Rate, abstention: Rate, errors: Rate)

  datatype Problem = InvalidCase | Duplicate | MixedCohort | InvalidCounts

  lemma GoldUnder(c: ScoreCase, assessed: bool)
    requires assessed <==> !ReferenceScope(c.reference.provenance).Unassessed?
    ensures Gold(c) == if assessed then c.reference.acceptability else Unknown
  {
  }

  lemma NoCounts()
    ensures CountsOf([]) ==
      Counts(map e | e in EFFECTIVES :: 0, map r | r in RAWS :: 0, map l | l in LABELS :: 0, 0, 0, 0, 0, 0)
  {
  }

  lemma KeysCover(c: ScoreCase)
    ensures Assess(c) in EFFECTIVES && Raw(c) in RAWS && Gold(c) in LABELS
  {
    hide Assess, Gold;
    var e, r, l := Assess(c), Raw(c), Gold(c);
    match e { case Passes => case Edits => case Blocks => case Abstains => case MeasurementError => }
    match l { case Acceptable => case Unacceptable => case Unknown => }
    if r.Some? {
      match r.value { case Pass => case Edit => case Block => case Abstain => case Error => }
    }
  }

  /** What one more case adds to the plain counters. */
  lemma CountersSnoc(cases: seq<ScoreCase>, c: ScoreCase)
    ensures var n, next := CountsOf(cases), CountsOf(cases + [c]);
      && next.passedKnown == n.passedKnown + (if Assess(c).Passes? && !Gold(c).Unknown? then 1 else 0)
      && next.passedUnknown == n.passedUnknown + (if Assess(c).Passes? && Gold(c).Unknown? then 1 else 0)
      && next.invalidPasses == n.invalidPasses + (if InvalidPass(c) then 1 else 0)
      && next.falsePasses == n.falsePasses + (if FalsePass(c) then 1 else 0)
      && next.falseBlocks == n.falseBlocks + (if FalseBlock(c) then 1 else 0)
  {
    hide Assess, Gold;
    NumberSnoc(cases, c, PassedWith(true));
    NumberSnoc(cases, c, PassedWith(false));
    NumberSnoc(cases, c, InvalidPass);
    NumberSnoc(cases, c, FalsePass);
    NumberSnoc(cases, c, FalseBlock);
  }

  /** The counters after every case, one case at a time. */
  method Count(cases: seq<ScoreCase>, assessed: bool) returns (n: Counts)
    requires forall c | c in cases :: assessed <==> !ReferenceScope(c.reference.provenance).Unassessed?
    ensures n == CountsOf(cases)
  {
    hide Assess, Gold, Raw, TallyBy, Number, ReferenceScope, KeyIs, PassedWith;
    NoCounts();
    n := Counts(map e | e in EFFECTIVES :: 0, map r | r in RAWS :: 0, map l | l in LABELS :: 0, 0, 0, 0, 0, 0);
    for i := 0 to |cases|
      invariant n == CountsOf(cases[..i])
    {
      var c := cases[i];
      assert cases[..i + 1] == cases[..i] + [c];
      KeysCover(c);
      TallySnoc(cases[..i], c, Assess, EFFECTIVES);
      TallySnoc(cases[..i], c, Raw, RAWS);
      TallySnoc(cases[..i], c, Gold, LABELS);
      CountersSnoc(cases[..i], c);
      var raw, effective := Raw(c), Assess(c);
      var gold := if assessed then c.reference.acceptability else Unknown;
      GoldUnder(c, assessed);
      n := n.(raw := n.raw[raw := n.raw[raw] + 1], decisions := n.decisions[effective := n.decisions[effective] + 1],
              gold := n.gold[gold := n.gold[gold] + 1]);
      if raw == Some(Pass) && effective.MeasurementError? {
        n := n.(invalidPasses := n.invalidPasses + 1);
      }
      if effective.Passes? {
        if gold.Unknown? {
          n := n.(passedUnknown := n.passedUnknown + 1);
        } else {
          n := n.(passedKnown := n.passedKnown + 1);
        }
        if gold.Unacceptable? {
          n := n.(falsePasses := n.falsePasses + 1);
        }
      } else if (effective.Edits? || effective.Blocks?) && gold.Acceptable? {
        n := n.(falseBlocks := n.falseBlocks + 1);
      }
    }
    assert cases[..|cases|] == cases;
  }

  function Families(cases: seq<ScoreCase>): set<string> {
    set c | c in cases :: c.family
  }

  function ScopeOf(cases: seq<ScoreCase>): Scope {
    if cases == [] then Unassessed else ReferenceScope(cases[0].reference.provenance)
  }

  /** The report a list of cases should get, each rate being an unrefused `RateOf`. */
  ghost predicate IsReport(cases: seq<ScoreCase>, r: Report) {
    var n, assessed := CountsOf(cases), !ScopeOf(cases).Unassessed? || cases == [];
    && r.scope == ScopeOf(cases) && r.cases == |cases| && r.families == |Families(cases)| && r.counts == n
    && Some(r.falsePass) == RateOf(n.falsePasses, n.gold[Unacceptable], assessed)
    && Some(r.falseBlock) == RateOf(n.falseBlocks, n.gold[Acceptable], assessed)
    && Some(r.acceptedRisk) == RateOf(n.falsePasses, n.passedKnown, assessed)
    && Some(r.coverage) == RateOf(n.decisions[Passes] + n.decisions[Edits] + n.decisions[Blocks], |cases|, true)
    && Some(r.abstention) == RateOf(n.decisions[Abstains], |cases|, true)
    && Some(r.errors) == RateOf(n.decisions[MeasurementError], |cases|, true)
  }

  lemma {:induction false} EveryCaseDecided(cases: seq<ScoreCase>)
    ensures var n := CountsOf(cases).decisions;
      n[Passes] + n[Edits] + n[Blocks] + n[Abstains] + n[MeasurementError] == |cases|
  {
    hide Assess;
    if cases != [] {
      EveryCaseDecided(cases[..|cases| - 1]);
      var c := cases[|cases| - 1];
      match Assess(c) { case Passes => case Edits => case Blocks => case Abstains => case MeasurementError => }
    }
  }

  lemma {:induction false} EveryCaseHeard(cases: seq<ScoreCase>)
    ensures var n := CountsOf(cases).raw;
      n[Some(Pass)] + n[Some(Edit)] + n[Some(Block)] + n[Some(Abstain)] + n[Some(Error)] + n[None] == |cases|
  {
    if cases != [] {
      EveryCaseHeard(cases[..|cases| - 1]);
      KeysCover(cases[|cases| - 1]);
    }
  }

  lemma {:induction false} EveryCaseLabelled(cases: seq<ScoreCase>)
    ensures var n := CountsOf(cases).gold; n[Acceptable] + n[Unacceptable] + n[Unknown] == |cases|
  {
    hide Gold;
    if cases != [] {
      EveryCaseLabelled(cases[..|cases| - 1]);
      match Gold(cases[|cases| - 1]) { case Acceptable => case Unacceptable => case Unknown => }
    }
  }

  /** The counts partition the cohort, a raw pass is credited or invalid, and no error is counted outside its label. */
  lemma CountsConserve(cases: seq<ScoreCase>)
    ensures var n := CountsOf(cases);
      && n.decisions[Passes] + n.decisions[Edits] + n.decisions[Blocks] + n.decisions[Abstains]
           + n.decisions[MeasurementError] == |cases|
      && n.gold[Acceptable] + n.gold[Unacceptable] + n.gold[Unknown] == |cases|
      && n.raw[Some(Pass)] + n.raw[Some(Edit)] + n.raw[Some(Block)] + n.raw[Some(Abstain)]
           + n.raw[Some(Error)] + n.raw[None] == |cases|
      && n.decisions[Passes] == n.passedKnown + n.passedUnknown
      && n.raw[Some(Pass)] == n.decisions[Passes] + n.invalidPasses
      && n.falsePasses <= n.passedKnown && n.falsePasses <= n.gold[Unacceptable]
      && n.falseBlocks <= n.gold[Acceptable] && n.falseBlocks <= n.decisions[Edits] + n.decisions[Blocks]
  {
    hide Assess, Gold, Number;
    EveryCaseDecided(cases);
    EveryCaseHeard(cases);
    EveryCaseLabelled(cases);
    forall c ensures Assess(c).MeasurementError? || Spoken(Assess(c)) == Raw(c) {
      AssessIsRawOrError(c);
    }
    var blocked := (c: ScoreCase) => Assess(c).Edits? || Assess(c).Blocks?;
    NumberSplit(cases, KeyIs(Assess, Passes), PassedWith(true), PassedWith(false));
    NumberSplit(cases, KeyIs(Raw, Some(Pass)), KeyIs(Assess, Passes), InvalidPass);
    NumberFewer(cases, FalsePass, PassedWith(true));
    NumberFewer(cases, FalsePass, KeyIs(Gold, Unacceptable));
    NumberFewer(cases, FalseBlock, KeyIs(Gold, Acceptable));
    NumberFewer(cases, FalseBlock, blocked);
    NumberSplit(cases, blocked, KeyIs(Assess, Edits), KeyIs(Assess, Blocks));
  }

  method Admit(cases: seq<ScoreCase>) returns (problem: Option<Problem>)
    ensures problem.None? <==> Scorable(cases)
  {
    hide ValidCase, Observation, CohortOf;
    if exists c | c in cases :: !ValidCase(c) {
      return Some(InvalidCase);
    }
    if exists i, j | 0 <= i < j < |cases| :: cases[i].id == cases[j].id {
      return Some(Duplicate);
    }
    if exists i, j | 0 <= i < j < |cases| :: CohortOf(cases[i]) != CohortOf(cases[j]) {
      return Some(MixedCohort);
    }
    if exists i, j | 0 <= i < j < |cases| :: Observation(cases[i]) == Observation(cases[j]) {
      return Some(Duplicate);
    }
    return None;
  }

  /** Succeeds on every scorable cohort: no `rate` call refuses its counts. */
  method ScoreDecisions(cases: seq<ScoreCase>) returns (r: Result<Report, Problem>)
    ensures r.Ok? <==> Scorable(cases)
    ensures r.Ok? ==> IsReport(cases, r.value)
  {
    hide Assess, Gold, CountsOf, Number, Scorable, ReferenceScope, Families;
    var problem := Admit(cases);
    if problem.Some? {
      return Err(problem.value);
    }
    var scope := ScopeOf(cases);
    OneScope(cases);
    var n := Count(cases, !scope.Unassessed?);
    CountsConserve(cases);
    KeysPresent(cases);
    var assessed := !scope.Unassessed? || cases == [];
    var decisive := n.decisions[Passes] + n.decisions[Edits] + n.decisions[Blocks];
    var falsePass := RateOf(n.falsePasses, n.gold[Unacceptable], assessed);
    var falseBlock := RateOf(n.falseBlocks, n.gold[Acceptable], assessed);
    var acceptedRisk := RateOf(n.falsePasses, n.passedKnown, assessed);
    var coverage := RateOf(decisive, |cases|, true);
    var abstention := RateOf(n.decisions[Abstains], |cases|, true);
    var errors := RateOf(n.decisions[MeasurementError], |cases|, true);
    if falsePass.None? || falseBlock.None? || acceptedRisk.None? || coverage.None? || abstention.None? || errors.None? {
      return Err(InvalidCounts);
    }
    r := Ok(Report(scope, |cases|, |Families(cases)|, n, falsePass.value, falseBlock.value, acceptedRisk.value,
                   coverage.value, abstention.value, errors.value));
  }

  lemma KeysPresent(cases: seq<ScoreCase>)
    ensures var n := CountsOf(cases); n.decisions.Keys == EFFECTIVES && n.raw.Keys == RAWS && n.gold.Keys == LABELS
  {
  }

  lemma OneScope(cases: seq<ScoreCase>)
    requires Scorable(cases)
    ensures forall c | c in cases ::
      !ScopeOf(cases).Unassessed? <==> !ReferenceScope(c.reference.provenance).Unassessed?
  {
    forall k | 0 <= k < |cases| ensures CohortOf(cases[k]) == CohortOf(cases[0]) {
    }
  }

  // ----- order of the cases ------------------------------------------------------------------

  lemma PairsPermuted(xs: seq<ScoreCase>, ys: seq<ScoreCase>, apart: (ScoreCase, ScoreCase) -> bool)
    requires multiset(xs) == multiset(ys)
    requires forall a, b :: apart(a, b) <==> apart(b, a)
    requires forall i, j | 0 <= i < j < |xs| :: apart(xs[i], xs[j]) && xs[i] != xs[j]
    ensures forall i, j | 0 <= i < j < |ys| :: apart(ys[i], ys[j]) && ys[i] != ys[j]
  {
    DistinctMultiset(xs);
    DistinctMultiset(ys);
    forall i, j | 0 <= i < j < |ys| ensures apart(ys[i], ys[j]) {
      assert ys[i] in multiset(xs) && ys[j] in multiset(xs) && ys[i] != ys[j];
      var a :| 0 <= a < |xs| && xs[a] == ys[i];
      var b :| 0 <= b < |xs| && xs[b] == ys[j];
    }
  }

  predicate Apart(a: ScoreCase, b: ScoreCase) {
    a.id != b.id && CohortOf(a) == CohortOf(b) && Observation(a) != Observation(b)
  }

  lemma ScorablePermuted(cases: seq<ScoreCase>, others: seq<ScoreCase>)
    requires multiset(cases) == multiset(others) && Scorable(cases)
    ensures Scorable(others)
    ensures forall c :: c in cases <==> c in others
  {
    hide ValidCase, CohortOf, Observation;
    forall c ensures c in cases <==> c in others {
      assert c in multiset(cases) <==> c in multiset(others);
    }
    PairsPermuted(cases, others, Apart);
  }

  /** Any order of the same cases gets the same report. */
  lemma OrderIsIrrelevant(cases: seq<ScoreCase>, others: seq<ScoreCase>, r: Report)
    requires multiset(cases) == multiset(others) && Scorable(cases) && IsReport(cases, r)
    ensures Scorable(others) && IsReport(others, r)
  {
    hide Scorable, Number, Assess, Gold, Raw, ReferenceScope;
    ScorablePermuted(cases, others);
    CountsPermuted(cases, others);
    assert |cases| == |multiset(cases)| == |others|;
    assert Families(cases) == Families(others);
    ScopePermuted(cases, others);
  }

  lemma ScopePermuted(cases: seq<ScoreCase>, others: seq<ScoreCase>)
    requires Scorable(cases) && multiset(cases) == multiset(others)
    requires forall c :: c in cases <==> c in others
    ensures ScopeOf(cases) == ScopeOf(others) && (cases == [] <==> others == [])
  {
    assert |cases| == |multiset(cases)| == |others|;
    if cases != [] {
      assert others[0] in others && others[0] in cases;
      var k :| 0 <= k < |cases| && cases[k] == others[0];
      assert CohortOf(cases[k]) == CohortOf(cases[0]);
    }
  }

  lemma CountsPermuted(cases: seq<ScoreCase>, others: seq<ScoreCase>)
    requires multiset(cases) == multiset(others)
    ensures CountsOf(cases) == CountsOf(others)
  {
    hide Assess, Gold, Raw, Number;
    forall e | e in EFFECTIVES ensures Number(cases, KeyIs(Assess, e)) == Number(others, KeyIs(Assess, e)) {
      NumberPermuted(cases, others, KeyIs(Assess, e));
    }
    forall r | r in RAWS ensures Number(cases, KeyIs(Raw, r)) == Number(others, KeyIs(Raw, r)) {
      NumberPermuted(cases, others, KeyIs(Raw, r));
    }
    forall l | l in LABELS ensures Number(cases, KeyIs(Gold, l)) == Number(others, KeyIs(Gold, l)) {
      NumberPermuted(cases, others, KeyIs(Gold, l));
    }
    NumberPermuted(cases, others, PassedWith(true));
    NumberPermuted(cases, others, PassedWith(false));
    NumberPermuted(cases, others, InvalidPass);
    NumberPermuted(cases, others, FalsePass);
    NumberPermuted(cases, others, FalseBlock);
  }
}
