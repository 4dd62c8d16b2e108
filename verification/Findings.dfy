/** One-to-one accounting of adjudicated findings against reference defects. */
module Findings {
  import opened Wrappers
  import opened Scoring
  import opened Decisions

  datatype State = Matched | Spurious | Ambiguous | NotAssessed

  /** What the scores depend on, by identifier; the judgments are those on predictions. */
  datatype Evidence = Evidence(
    predictions: map<string, Finding>, defects: map<string, Finding>, judgments: map<string, Judgment>,
    misplaced: set<string>, misplacedDefects: set<string>, authority: Scope)

  function ById(rows: seq<Finding>): map<string, Finding>
    requires Unique(FindingIds(rows))
  {
    map i | 0 <= i < |rows| :: rows[i].id := rows[i]
  }

  function Judgments(c: ScoreCase): seq<Judgment> {
    if c.alignment.Some? then c.alignment.value.judgments else []
  }

  function AlignmentScope(c: ScoreCase): Scope {
    if c.alignment.Some? then ReferenceScope(c.alignment.value.provenance) else Unassessed
  }

  /** The defect rows, in the order given. */
  function Predictions(rows: seq<Finding>): seq<Finding> {
    if rows == [] then []
    else Predictions(rows[..|rows| - 1]) + (if rows[|rows| - 1].kind.Defect? then [rows[|rows| - 1]] else [])
  }

  function MisplacedIds(rows: seq<Finding>, texts: map<string, string>): set<string> {
    set f | f in rows && Misplaced(f, texts) :: f.id
  }

  lemma {:induction false} PredictionRows(rows: seq<Finding>)
    ensures forall f :: f in Predictions(rows) <==> f in rows && f.kind.Defect?
    ensures |Predictions(rows)| <= |rows|
  {
    if rows != [] {
      PredictionRows(rows[..|rows| - 1]);
      assert rows == rows[..|rows| - 1] + [rows[|rows| - 1]];
    }
  }

  /** A last row under an identifier of its own. */
  lemma UniqueSnoc(rows: seq<Finding>, last: Finding)
    ensures Unique(FindingIds(rows + [last])) <==> Unique(FindingIds(rows)) && forall f | f in rows :: f.id != last.id
  {
    var all, n := FindingIds(rows + [last]), |rows|;
    assert all == FindingIds(rows) + [last.id];
    if Unique(all) {
      forall f | f in rows ensures f.id != last.id {
        var i :| 0 <= i < n && rows[i] == f;
        assert all[i] != all[n];
      }
      forall i, j | 0 <= i < j < n ensures FindingIds(rows)[i] != FindingIds(rows)[j] {
        assert all[i] != all[j];
      }
    }
  }

  lemma {:induction false} PredictionsUnique(rows: seq<Finding>)
    requires Unique(FindingIds(rows))
    ensures Unique(FindingIds(Predictions(rows)))
  {
    if rows != [] {
      var front, last := rows[..|rows| - 1], rows[|rows| - 1];
      assert rows == front + [last];
      hide Unique, FindingIds;
      UniqueSnoc(front, last);
      PredictionsUnique(front);
      PredictionRows(front);
      UniqueSnoc(Predictions(front), last);
    }
  }

  lemma PredictionMembers(rows: seq<Finding>)
    ensures forall f :: f in Predictions(rows) <==> f in rows && f.kind.Defect?
    ensures |Predictions(rows)| <= |rows|
    ensures Unique(FindingIds(rows)) ==> Unique(FindingIds(Predictions(rows)))
  {
    hide Unique, FindingIds;
    PredictionRows(rows);
    if Unique(FindingIds(rows)) {
      PredictionsUnique(rows);
    }
  }

  ghost function EvidenceOf(c: ScoreCase): Evidence
    requires ValidCase(c)
  {
    PredictionMembers(Rows(c));
    var predictions := ById(Predictions(Rows(c)));
    var all := Judgments(c);
    Evidence(predictions, ById(c.reference.defects),
             map i | 0 <= i < |all| && all[i].findingId in predictions :: all[i].findingId := all[i],
             MisplacedIds(Rows(c), c.texts), MisplacedIds(c.reference.defects, c.texts), AlignmentScope(c))
  }

  /** Every match that is claimed names one known defect. */
  ghost predicate Sane(e: Evidence) {
    && e.judgments.Keys <= e.predictions.Keys
    && forall f | f in e.judgments && e.judgments[f].state.SaidMatched? ::
         |e.judgments[f].defectIds| == 1 && e.judgments[f].defectIds[0] in e.defects
  }

  // ----- what each prediction comes to ---------------------------------------------------------

  predicate Says(e: Evidence, f: string, state: JudgmentState) {
    f in e.judgments && e.judgments[f].state == state
  }

  /** The defect a prediction is said to match. */
  function Claim(e: Evidence, f: string): Option<string>
    requires Sane(e)
  {
    if Says(e, f, SaidMatched) then Some(e.judgments[f].defectIds[0]) else None
  }

  /** Another prediction is said to match the same defect. */
  predicate Contested(e: Evidence, f: string)
    requires Sane(e)
  {
    Claim(e, f).Some? && exists g | g in e.predictions :: g != f && Claim(e, g) == Claim(e, f)
  }

  predicate SameCategory(e: Evidence, f: string)
    requires Sane(e) && f in e.predictions && Claim(e, f).Some?
  {
    e.predictions[f].category == e.defects[Claim(e, f).value].category
  }

  function StateOf(e: Evidence, f: string): State
    requires Sane(e) && f in e.predictions
  {
    if Says(e, f, SaidAmbiguous) || Contested(e, f) then Ambiguous
    else if e.authority.Unassessed? || f in e.misplaced then NotAssessed
    else if Says(e, f, SaidSpurious) then Spurious
    else if Claim(e, f).Some? && Claim(e, f).value !in e.misplacedDefects && SameCategory(e, f) then Matched
    else NotAssessed
  }

  /** The prediction is said to match this defect. */
  ghost predicate MatchedWith(e: Evidence, f: string, d: string) {
    f in e.judgments && e.judgments[f].state.SaidMatched? && e.judgments[f].defectIds == [d]
  }

  /** Nobody else is said to match what the prediction is said to match. */
  ghost predicate Unrivalled(e: Evidence, f: string) {
    forall g, d | g in e.predictions && g != f && MatchedWith(e, f, d) :: !MatchedWith(e, g, d)
  }

  /** Somebody may decide about the prediction, and its span is where it says. */
  ghost predicate Decidable(e: Evidence, f: string) {
    !e.authority.Unassessed? && f !in e.misplaced
  }

  /** When each state arises, from the judgments, the authority and the spans alone. */
  lemma StateMeans(e: Evidence, f: string)
    requires Sane(e) && f in e.predictions
    ensures StateOf(e, f).Ambiguous? <==> Says(e, f, SaidAmbiguous) || !Unrivalled(e, f)
    ensures StateOf(e, f).Spurious? <==> Says(e, f, SaidSpurious) && Decidable(e, f)
    ensures StateOf(e, f).Matched? <==>
      exists d :: MatchedWith(e, f, d) && d in e.defects && Unrivalled(e, f) && Decidable(e, f)
        && d !in e.misplacedDefects && e.predictions[f].category == e.defects[d].category
    ensures Says(e, f, SaidUnassessed) || f !in e.judgments ==> StateOf(e, f).NotAssessed?
  {
    forall g | g in e.predictions && Claim(e, g).Some? ensures MatchedWith(e, g, Claim(e, g).value) {
    }
    forall g, d | MatchedWith(e, g, d) ensures Claim(e, g) == Some(d) {
    }
  }

  function States(e: Evidence): map<string, State>
    requires Sane(e)
  {
    map f | f in e.predictions :: StateOf(e, f)
  }

  /** The predictions in one state. */
  function In(e: Evidence, state: State): set<string>
    requires Sane(e)
  {
    set f | f in e.predictions && StateOf(e, f) == state
  }

  function MatchedDefects(e: Evidence): set<string>
    requires Sane(e)
  {
    set f | f in e.predictions && StateOf(e, f).Matched? :: Claim(e, f).value
  }

  lemma MatchedClaims(e: Evidence, f: string)
    requires Sane(e) && f in In(e, Matched)
    ensures Claim(e, f).Some? && Claim(e, f).value in e.defects && !Contested(e, f)
  {
  }

  predicate Measurable(e: Evidence)
    requires Sane(e)
  {
    && e.misplaced == {} && e.misplacedDefects == {}
    && forall f | f in e.predictions && Claim(e, f).Some? :: SameCategory(e, f)
  }

  /** Matched predictions and matched defects correspond one to one. */
  lemma MatchesAreOneToOne(e: Evidence, f: string, g: string)
    requires Sane(e) && f in In(e, Matched) && g in In(e, Matched) && f != g
    ensures Claim(e, f).value != Claim(e, g).value
    ensures Claim(e, f).value in e.defects
  {
    assert !Contested(e, f) && Claim(e, f).Some?;
  }

  function Image(m: map<string, string>, keys: set<string>): set<string>
    requires keys <= m.Keys
  {
    set x | x in keys :: m[x]
  }

  lemma {:induction false} ImageSize(m: map<string, string>, keys: set<string>)
    requires keys <= m.Keys && forall x, y | x in keys && y in keys && x != y :: m[x] != m[y]
    ensures |Image(m, keys)| == |keys|
  {
    if keys != {} {
      var x :| x in keys;
      ImageSize(m, keys - {x});
      assert m[x] !in Image(m, keys - {x});
      assert Image(m, keys) == Image(m, keys - {x}) + {m[x]};
    }
  }

  function Having(states: map<string, State>, state: State): set<string> {
    set f | f in states && states[f] == state
  }

  lemma {:induction false} StatesPartition(states: map<string, State>)
    ensures |states| == |Having(states, Matched)| + |Having(states, Spurious)| + |Having(states, Ambiguous)|
      + |Having(states, NotAssessed)|
  {
    var a, b := Having(states, Matched) + Having(states, Spurious),
      Having(states, Ambiguous) + Having(states, NotAssessed);
    assert states.Keys == a + b && a !! b;
    assert Having(states, Matched) !! Having(states, Spurious);
    assert Having(states, Ambiguous) !! Having(states, NotAssessed);
  }

  lemma InIsHaving(e: Evidence)
    requires Sane(e)
    ensures States(e).Keys == e.predictions.Keys
    ensures forall state :: In(e, state) == Having(States(e), state)
  {
  }

  lemma MatchedAreDefects(e: Evidence)
    requires Sane(e)
    ensures MatchedDefects(e) <= e.defects.Keys
    ensures |MatchedDefects(e)| == |In(e, Matched)|
  {
    hide StateOf, Contested;
    forall f | f in In(e, Matched) ensures Claim(e, f).Some? && Claim(e, f).value in e.defects {
      MatchedClaims(e, f);
    }
    var claims := map f | f in In(e, Matched) :: Claim(e, f).value;
    forall f, g | f in In(e, Matched) && g in In(e, Matched) && f != g ensures claims[f] != claims[g] {
      MatchesAreOneToOne(e, f, g);
    }
    ImageSize(claims, In(e, Matched));
    forall d
      ensures (d in MatchedDefects(e) <==> d in Image(claims, In(e, Matched)))
      ensures d in MatchedDefects(e) ==> d in e.defects
    {
      if d in MatchedDefects(e) {
        var f :| f in e.predictions && StateOf(e, f).Matched? && Claim(e, f).value == d;
        assert f in In(e, Matched) && claims[f] == d;
      }
    }
    assert MatchedDefects(e) == Image(claims, In(e, Matched));
  }

  /** No prediction and no defect is lost or counted twice. */
  lemma ScoresConserve(e: Evidence)
    requires Sane(e)
    ensures |e.predictions| ==
      |MatchedDefects(e)| + |In(e, Spurious)| + |In(e, Ambiguous)| + |In(e, NotAssessed)|
    ensures MatchedDefects(e) <= e.defects.Keys
    ensures |e.defects| == |MatchedDefects(e)| + |e.defects.Keys - MatchedDefects(e)|
  {
    hide Sane, In, MatchedDefects, StateOf, Having;
    StatesPartition(States(e));
    InIsHaving(e);
    MatchedAreDefects(e);
    assert |States(e)| == |States(e).Keys| && |e.predictions| == |e.predictions.Keys|;
    assert |e.defects| == |e.defects.Keys|;
    assert e.defects.Keys == MatchedDefects(e) + (e.defects.Keys - MatchedDefects(e));
  }

  // ----- the report -----------------------------------------------------------------------------

  datatype Coverage = FullReview | NoReview | PartialReview

  function CoverageOf(c: ScoreCase): Coverage {
    if c.review.None? || c.review.value.decision.Error? then NoReview
    else if Assess(c).Passes? || Assess(c).Edits? || Assess(c).Blocks? then FullReview
    else PartialReview
  }

  /** A review is complete when a decision is credited to it, absent when there is none or it is an error. */
  lemma CoverageMeans(c: ScoreCase)
    ensures CoverageOf(c).FullReview? <==> Spoken(Assess(c)) in {Some(Pass), Some(Edit), Some(Block)}
    ensures CoverageOf(c).NoReview? <==> Raw(c) == None || Raw(c) == Some(Verdict.Error)
  {
    hide HasContent, Misplaced, RequiredIds;
    AssessIsRawOrError(c);
  }

  datatype FindingsReport = FindingsReport(
    coverage: Coverage, measurable: bool, predictions: nat, suggestions: nat, defects: nat,
    matched: nat, spurious: nat, notAssessed: nat, ambiguous: nat, unmatched: nat,
    critical: nat, criticalMatched: nat, criticalMissed: Option<nat>,
    precision: Rate, recall: Rate, criticalRecall: Rate,
    pendingIds: set<string>, ambiguousIds: set<string>, unmatchedIds: set<string>)

  function Critical(defects: map<string, Finding>): set<string> {
    set d | d in defects && defects[d].severity.Critical?
  }

  ghost predicate Assessed(c: ScoreCase, e: Evidence)
    requires Sane(e)
  {
    && Measurable(e) && !CoverageOf(c).NoReview? && !c.reference.inventory.Unavailable?
    && !ReferenceScope(c.reference.provenance).Unassessed? && ReferenceScope(c.reference.provenance) == e.authority
    && In(e, NotAssessed) + In(e, Ambiguous) == {}
  }

  ghost predicate RecallAssessed(c: ScoreCase, e: Evidence)
    requires Sane(e)
  {
    Assessed(c, e) && c.reference.inventory.Complete? && CoverageOf(c).FullReview?
  }

  ghost predicate RightCounts(c: ScoreCase, e: Evidence, r: FindingsReport)
    requires Sane(e)
  {
    && r.predictions == |e.predictions| && r.defects == |e.defects|
    && r.matched == |MatchedDefects(e)| && r.spurious == |In(e, Spurious)|
    && r.notAssessed == |In(e, NotAssessed)| && r.ambiguous == |In(e, Ambiguous)|
    && r.unmatched == |e.defects.Keys - MatchedDefects(e)|
    && r.critical == |Critical(e.defects)| && r.criticalMatched == |Critical(e.defects) * MatchedDefects(e)|
    && r.criticalMissed == (if RecallAssessed(c, e) then Some(|Critical(e.defects) - MatchedDefects(e)|) else None)
  }

  ghost predicate RightLists(e: Evidence, r: FindingsReport)
    requires Sane(e)
  {
    && r.pendingIds == In(e, NotAssessed) + In(e, Ambiguous) && r.ambiguousIds == In(e, Ambiguous)
    && r.unmatchedIds == e.defects.Keys - MatchedDefects(e)
  }

  ghost predicate RightRates(c: ScoreCase, e: Evidence, r: FindingsReport)
    requires Sane(e)
  {
    && Some(r.precision) == RateOf(r.matched, r.predictions, Assessed(c, e))
    && Some(r.recall) == RateOf(r.matched, r.defects, RecallAssessed(c, e))
    && Some(r.criticalRecall) == RateOf(r.criticalMatched, r.critical, RecallAssessed(c, e))
  }

  /** The report a case should get, in terms of the states of its predictions. */
  ghost predicate IsFindingsReport(c: ScoreCase, e: Evidence, r: FindingsReport)
    requires Sane(e)
  {
    && r.coverage == CoverageOf(c) && r.measurable == Measurable(e) && r.suggestions + r.predictions == |Rows(c)|
    && RightCounts(c, e, r) && RightLists(e, r) && RightRates(c, e, r)
  }

  lemma SplitSize<T>(a: set<T>, b: set<T>)
    ensures |a| == |a * b| + |a - b|
  {
    assert a == (a * b) + (a - b);
  }

  lemma AssessedIsDecided(c: ScoreCase, e: Evidence)
    requires Sane(e)
    ensures Assessed(c, e) ==> |In(e, NotAssessed)| == 0 && |In(e, Ambiguous)| == 0
  {
    hide Sane, In, Measurable, CoverageOf, ReferenceScope;
    if Assessed(c, e) {
      assert In(e, NotAssessed) == {} && In(e, Ambiguous) == {};
    }
  }

  /** The reported counts account for every prediction and every defect. */
  lemma ReportConserves(c: ScoreCase, e: Evidence, r: FindingsReport)
    requires Sane(e) && RightCounts(c, e, r)
    ensures r.predictions == r.matched + r.spurious + r.ambiguous + r.notAssessed
    ensures r.defects == r.matched + r.unmatched
    ensures r.criticalMissed.Some? ==> r.criticalMissed.value == r.critical - r.criticalMatched
  {
    hide Sane, In, MatchedDefects, Critical, RecallAssessed;
    ScoresConserve(e);
    SplitSize(Critical(e.defects), MatchedDefects(e));
  }

  /** A known precision or recall is over decided predictions only. */
  lemma KnownRatesAreDecided(c: ScoreCase, e: Evidence, r: FindingsReport)
    requires Sane(e) && IsFindingsReport(c, e, r)
    requires r.precision.state.KnownRate? || r.recall.state.KnownRate? || r.criticalRecall.state.KnownRate?
    ensures r.ambiguous == 0 && r.notAssessed == 0 && r.predictions == r.matched + r.spurious && r.measurable
  {
    hide Sane, In, MatchedDefects, Measurable, CoverageOf, RightLists, ReferenceScope, Critical;
    AssessedIsDecided(c, e);
    assert Assessed(c, e);
    ReportConserves(c, e, r);
  }

  lemma EvidenceIsSane(c: ScoreCase)
    requires ValidCase(c)
    ensures Sane(EvidenceOf(c))
  {
    var e := EvidenceOf(c);
    forall f | f in e.judgments && e.judgments[f].state.SaidMatched?
      ensures |e.judgments[f].defectIds| == 1 && e.judgments[f].defectIds[0] in e.defects
    {
      var j := e.judgments[f];
      assert j in c.alignment.value.judgments && JudgmentOk(j);
      assert j.defectIds[0] in FindingIds(c.reference.defects);
    }
  }

  // ----- the loops ------------------------------------------------------------------------------

  ghost function ClaimantsOf(e: Evidence, some: set<string>, d: string): set<string>
    requires Sane(e)
  {
    set f | f in some && Claim(e, f) == Some(d)
  }

  ghost function Ids(rows: seq<Finding>): set<string> {
    set f | f in rows :: f.id
  }

  lemma IdsGrow(rows: seq<Finding>, i: nat)
    requires i < |rows| && Unique(FindingIds(rows))
    ensures Ids(rows[..i + 1]) == Ids(rows[..i]) + {rows[i].id} && rows[i].id !in Ids(rows[..i])
  {
    forall k | 0 <= k < i ensures rows[k].id != rows[i].id {
      assert FindingIds(rows)[k] != FindingIds(rows)[i];
    }
  }

  lemma ClaimantsGrow(e: Evidence, some: set<string>, f: string, d: string)
    requires Sane(e) && f !in some
    ensures |ClaimantsOf(e, some + {f}, d)| == |ClaimantsOf(e, some, d)| + (if Claim(e, f) == Some(d) then 1 else 0)
  {
    hide Claim, Sane;
    assert ClaimantsOf(e, some + {f}, d) == ClaimantsOf(e, some, d) + if Claim(e, f) == Some(d) then {f} else {};
  }

  /** Counting claims finds exactly the contested ones. */
  lemma ContestedByCount(e: Evidence, f: string)
    requires Sane(e) && f in e.predictions && Claim(e, f).Some?
    ensures Contested(e, f) <==> |ClaimantsOf(e, e.predictions.Keys, Claim(e, f).value)| > 1
  {
    var all := ClaimantsOf(e, e.predictions.Keys, Claim(e, f).value);
    assert f in all && all == {f} + (all - {f});
    if Contested(e, f) {
      var g :| g in e.predictions && g != f && Claim(e, g) == Claim(e, f);
      assert g in all - {f};
    } else {
      assert all - {f} == {};
    }
  }

  /** The dictionary agrees with the evidence on every row. */
  ghost predicate Faithful(e: Evidence, rows: seq<Finding>, judgments: map<string, Judgment>) {
    && Unique(FindingIds(rows))
    && (forall f | f in rows :: f.id in judgments <==> f.id in e.judgments)
    && (forall f | f in rows && f.id in judgments :: judgments[f.id] == e.judgments[f.id])
  }

  ghost predicate Counted(e: Evidence, some: set<string>, claims: map<string, nat>)
    requires Sane(e)
  {
    forall d :: (if d in claims then claims[d] else 0) == |ClaimantsOf(e, some, d)|
  }

  /** How many predictions are said to match each defect. */
  method CountClaims(ghost e: Evidence, rows: seq<Finding>, judgments: map<string, Judgment>)
    returns (claims: map<string, nat>)
    requires Sane(e) && Faithful(e, rows, judgments)
    ensures Counted(e, Ids(rows), claims)
  {
    hide ClaimantsOf, Ids;
    claims := map[];
    NoClaims(e);
    for i := 0 to |rows|
      invariant Counted(e, Ids(rows[..i]), claims)
    {
      var f := rows[i].id;
      IdsGrow(rows, i);
      forall d ensures |ClaimantsOf(e, Ids(rows[..i + 1]), d)| ==
        |ClaimantsOf(e, Ids(rows[..i]), d)| + (if Claim(e, f) == Some(d) then 1 else 0)
      {
        ClaimantsGrow(e, Ids(rows[..i]), f, d);
      }
      assert rows[i] in rows;
      if f in judgments && judgments[f].state.SaidMatched? {
        var d := judgments[f].defectIds[0];
        claims := claims[d := (if d in claims then claims[d] else 0) + 1];
      }
    }
    assert rows[..|rows|] == rows;
  }

  lemma NoClaims(e: Evidence)
    requires Sane(e)
    ensures Ids([]) == {} && Counted(e, Ids([]), map[])
  {
    forall d ensures |ClaimantsOf(e, Ids([]), d)| == 0 {
      assert ClaimantsOf(e, Ids([]), d) == {};
    }
  }

  ghost predicate Decided(e: Evidence, some: set<string>, states: map<string, State>, matched: set<string>,
                          agreed: bool)
    requires Sane(e) && some <= e.predictions.Keys
  {
    && states.Keys == some && (forall f | f in some :: states[f] == StateOf(e, f))
    && matched == (set f | f in some && StateOf(e, f).Matched? :: Claim(e, f).value)
    && (agreed <==> forall f | f in some && Claim(e, f).Some? :: SameCategory(e, f))
  }

  lemma DecidedGrows(e: Evidence, some: set<string>, states: map<string, State>, matched: set<string>, agreed: bool,
                     f: string)
    requires Sane(e) && some <= e.predictions.Keys && f in e.predictions && Decided(e, some, states, matched, agreed)
    ensures Decided(e, some + {f}, states[f := StateOf(e, f)],
                    matched + (if StateOf(e, f).Matched? then {Claim(e, f).value} else {}),
                    agreed && (Claim(e, f).Some? ==> SameCategory(e, f)))
  {
    hide Sane, StateOf, Claim, SameCategory;
    forall g | g in some ensures g in e.predictions {
    }
  }

  /** One state for every prediction, the matched defects, and whether every claimed match agrees in category. */
  method Decide(ghost e: Evidence, rows: seq<Finding>, defects: map<string, Finding>, judgments: map<string, Judgment>,
                claims: map<string, nat>, misplaced: set<string>, misplacedDefects: set<string>, authority: Scope)
    returns (states: map<string, State>, matched: set<string>, agreed: bool)
    requires Sane(e) && Faithful(e, rows, judgments) && Ids(rows) == e.predictions.Keys
    requires forall f | f in rows :: f == e.predictions[f.id]
    requires Counted(e, Ids(rows), claims)
    requires defects == e.defects && misplaced == e.misplaced && misplacedDefects == e.misplacedDefects
      && authority == e.authority
    ensures Decided(e, e.predictions.Keys, states, matched, agreed)
  {
    hide Counted, Decided, Ids, ClaimantsOf, Contested;
    states, matched, agreed := map[], {}, true;
    NoneDecided(e);
    for i := 0 to |rows|
      invariant Ids(rows[..i]) <= e.predictions.Keys
      invariant Decided(e, Ids(rows[..i]), states, matched, agreed)
    {
      var row := rows[i];
      assert row in rows;
      RowKnown(e, rows, i);
      var state, hit, fits := Judge(e, row, defects, judgments, claims, misplaced, misplacedDefects, authority);
      IdsGrow(rows, i);
      DecidedGrows(e, Ids(rows[..i]), states, matched, agreed, row.id);
      states, matched, agreed := states[row.id := state], matched + hit, agreed && fits;
    }
    assert rows[..|rows|] == rows;
  }

  lemma NoneDecided(e: Evidence)
    requires Sane(e)
    ensures Ids([]) == {} && Decided(e, Ids([]), map[], {}, true)
  {
  }

  lemma RowKnown(e: Evidence, rows: seq<Finding>, i: nat)
    requires i < |rows| && Ids(rows) == e.predictions.Keys
    ensures rows[i].id in e.predictions && Ids(rows[..i + 1]) <= e.predictions.Keys
  {
    assert rows[i].id in Ids(rows);
  }

  /** The branches for one prediction: its state, the defect it takes if any, and whether its claim agrees in
      category. */
  method Judge(ghost e: Evidence, row: Finding, defects: map<string, Finding>, judgments: map<string, Judgment>,
               claims: map<string, nat>, misplaced: set<string>, misplacedDefects: set<string>, authority: Scope)
    returns (state: State, hit: set<string>, fits: bool)
    requires Sane(e) && row.id in e.predictions && row == e.predictions[row.id]
    requires (row.id in judgments <==> row.id in e.judgments)
      && (row.id in judgments ==> judgments[row.id] == e.judgments[row.id])
    requires Counted(e, e.predictions.Keys, claims)
    requires defects == e.defects && misplaced == e.misplaced && misplacedDefects == e.misplacedDefects
      && authority == e.authority
    ensures state == StateOf(e, row.id)
    ensures hit == if StateOf(e, row.id).Matched? then {Claim(e, row.id).value} else {}
    ensures fits <==> (Claim(e, row.id).Some? ==> SameCategory(e, row.id))
  {
    hide ClaimantsOf, Contested;
    state, hit, fits := NotAssessed, {}, true;
    UnclaimedIsUncontested(e, row.id);
    if row.id in judgments && judgments[row.id].state.SaidAmbiguous? {
      state := Ambiguous;
    } else if row.id in judgments && judgments[row.id].state.SaidMatched? {
      var d := judgments[row.id].defectIds[0];
      fits := row.category == defects[d].category;
      ContestedByCount(e, row.id);
      CountOf(e, claims, d);
      if claims[d] > 1 {
        state := Ambiguous;
      } else if !authority.Unassessed? && row.id !in misplaced && d !in misplacedDefects && fits {
        state, hit := Matched, {d};
      }
    } else if row.id in judgments && judgments[row.id].state.SaidSpurious? && !authority.Unassessed?
              && row.id !in misplaced {
      state := Spurious;
    }
  }

  lemma UnclaimedIsUncontested(e: Evidence, f: string)
    requires Sane(e) && f in e.predictions
    ensures Contested(e, f) ==> Claim(e, f).Some?
  {
  }

  lemma CountOf(e: Evidence, claims: map<string, nat>, d: string)
    requires Sane(e) && Counted(e, e.predictions.Keys, claims)
    requires exists f :: f in e.predictions && Claim(e, f) == Some(d)
    ensures d in claims && claims[d] == |ClaimantsOf(e, e.predictions.Keys, d)|
  {
    var f :| f in e.predictions && Claim(e, f) == Some(d);
    assert f in ClaimantsOf(e, e.predictions.Keys, d);
  }

  method Index(all: seq<Judgment>) returns (judgments: map<string, Judgment>)
    requires forall i, j | 0 <= i < j < |all| :: all[i].findingId != all[j].findingId
    ensures forall j | j in all :: j.findingId in judgments && judgments[j.findingId] == j
    ensures forall f | f in judgments :: judgments[f] in all && judgments[f].findingId == f
  {
    judgments := map[];
    for i := 0 to |all|
      invariant forall k | 0 <= k < i :: all[k].findingId in judgments && judgments[all[k].findingId] == all[k]
      invariant forall f | f in judgments :: judgments[f] in all && judgments[f].findingId == f
    {
      judgments := judgments[all[i].findingId := all[i]];
    }
  }

  lemma {:induction false} IdsSize(rows: seq<Finding>, n: nat)
    requires Unique(FindingIds(rows)) && n <= |rows|
    ensures |Ids(rows[..n])| == n
  {
    hide Ids, Unique, FindingIds;
    if n > 0 {
      IdsSize(rows, n - 1);
      IdsGrow(rows, n - 1);
    } else {
      NoIds();
      assert rows[..0] == [];
    }
  }

  lemma NoIds()
    ensures Ids([]) == {}
  {
  }

  lemma ByIdAt(rows: seq<Finding>)
    requires Unique(FindingIds(rows))
    ensures forall f | f in rows :: f.id in ById(rows) && ById(rows)[f.id] == f
    ensures forall id | id in ById(rows) :: ById(rows)[id] in rows && ById(rows)[id].id == id
  {
    forall f | f in rows ensures f.id in ById(rows) && ById(rows)[f.id] == f {
      var i :| 0 <= i < |rows| && rows[i] == f;
      assert rows[i].id in ById(rows);
    }
  }

  lemma ByIdHas(rows: seq<Finding>)
    requires Unique(FindingIds(rows))
    ensures ById(rows).Keys == Ids(rows) && |ById(rows)| == |rows|
    ensures forall f | f in rows :: f.id in ById(rows) && ById(rows)[f.id] == f
  {
    hide ById, Unique, FindingIds;
    ByIdAt(rows);
    IdsSize(rows, |rows|);
    assert rows[..|rows|] == rows && |ById(rows)| == |ById(rows).Keys|;
    forall id ensures id in ById(rows).Keys <==> id in Ids(rows) {
    }
  }

  lemma RowsUnique(c: ScoreCase)
    requires ValidCase(c)
    ensures Unique(FindingIds(Rows(c))) && Unique(FindingIds(c.reference.defects))
  {
  }

  /** The evidence's dictionaries, without the comprehensions that build them. */
  lemma EvidenceParts(c: ScoreCase)
    requires ValidCase(c)
    ensures var e, rows := EvidenceOf(c), Predictions(Rows(c));
      && Unique(FindingIds(rows)) && e.predictions == ById(rows) && e.defects == ById(c.reference.defects)
      && e.misplaced == MisplacedIds(Rows(c), c.texts)
      && e.misplacedDefects == MisplacedIds(c.reference.defects, c.texts)
      && e.authority == AlignmentScope(c)
      && (forall f :: f in e.judgments <==> f in e.predictions && exists j | j in Judgments(c) :: j.findingId == f)
      && (forall f | f in e.judgments :: e.judgments[f] in Judgments(c) && e.judgments[f].findingId == f)
  {
    hide ById, Unique, FindingIds, MisplacedIds;
    RowsUnique(c);
    PredictionMembers(Rows(c));
    var e, all := EvidenceOf(c), Judgments(c);
    forall f | f in e.predictions && exists j | j in all :: j.findingId == f ensures f in e.judgments {
      var j :| j in all && j.findingId == f;
      var i :| 0 <= i < |all| && all[i] == j;
      assert all[i].findingId in e.judgments;
    }
  }

  lemma IndexIsFaithful(c: ScoreCase, judgments: map<string, Judgment>)
    requires ValidCase(c)
    requires forall j | j in Judgments(c) :: j.findingId in judgments && judgments[j.findingId] == j
    requires forall f | f in judgments :: judgments[f] in Judgments(c) && judgments[f].findingId == f
    ensures Faithful(EvidenceOf(c), Predictions(Rows(c)), judgments)
    ensures Ids(Predictions(Rows(c))) == EvidenceOf(c).predictions.Keys
    ensures forall f | f in Predictions(Rows(c)) :: f == EvidenceOf(c).predictions[f.id]
    ensures |EvidenceOf(c).predictions| == |Predictions(Rows(c))| && |EvidenceOf(c).defects| == |c.reference.defects|
  {
    hide ById, Unique, FindingIds, MisplacedIds, EvidenceOf, ValidCase, Ids, Predictions;
    EvidenceParts(c);
    ByIdHas(Predictions(Rows(c)));
    RowsUnique(c);
    ByIdHas(c.reference.defects);
  }

  /** What the final dictionaries say is what the evidence says. */
  lemma DecidedMeans(e: Evidence, states: map<string, State>, matched: set<string>, agreed: bool)
    requires Sane(e) && Decided(e, e.predictions.Keys, states, matched, agreed)
    ensures matched == MatchedDefects(e)
    ensures forall state :: Having(states, state) == In(e, state)
    ensures Measurable(e) <==> agreed && e.misplaced == {} && e.misplacedDefects == {}
  {
  }

  /** Whether precision, and whether recall, may be reported. */
  method Authority(c: ScoreCase, ghost e: Evidence, measurable: bool, pending: set<string>)
    returns (assessed: bool, recallAssessed: bool)
    requires Sane(e) && measurable == Measurable(e) && e.authority == AlignmentScope(c)
    requires pending == In(e, NotAssessed) + In(e, Ambiguous)
    ensures assessed == Assessed(c, e) && recallAssessed == RecallAssessed(c, e)
  {
    hide Sane, In, Measurable, CoverageOf, ReferenceScope;
    var scope := ReferenceScope(c.reference.provenance);
    assessed := measurable && !CoverageOf(c).NoReview? && !c.reference.inventory.Unavailable?
      && !scope.Unassessed? && scope == AlignmentScope(c) && pending == {};
    recallAssessed := assessed && c.reference.inventory.Complete? && CoverageOf(c).FullReview?;
  }

  /** The defects that decide whether a release is safe. */
  method CriticalRows(defects: map<string, Finding>) returns (critical: set<string>)
    ensures critical == Critical(defects)
  {
    critical := set d | d in defects && defects[d].severity.Critical?;
  }

  /** The last expressions of the scoring: counts, lists and the three rates; `None` would be a refused rate. */
  method Report(c: ScoreCase, ghost e: Evidence, predictions: nat, defects: map<string, Finding>,
                critical: set<string>, states: map<string, State>, matched: set<string>, measurable: bool)
    returns (r: Option<FindingsReport>)
    requires Sane(e) && predictions == |e.predictions| <= |Rows(c)| && defects == e.defects
    requires critical == Critical(e.defects) && matched == MatchedDefects(e) && measurable == Measurable(e)
    requires e.authority == AlignmentScope(c)
    requires forall state :: Having(states, state) == In(e, state)
    ensures r.Some? && IsFindingsReport(c, e, r.value)
  {
    hide Sane, In, MatchedDefects, Measurable, CoverageOf, Critical, ReferenceScope, Having, Assessed, RecallAssessed,
      Rows;
    var ambiguous, undecided := Having(states, Ambiguous), Having(states, NotAssessed);
    var pending := undecided + ambiguous;
    var assessed, recallAssessed := Authority(c, e, measurable, pending);
    var unmatched := defects.Keys - matched;
    var missed := |critical| - |critical * matched|;
    RatesAccepted(e);
    var precision := RateOf(|matched|, predictions, assessed);
    var recall := RateOf(|matched|, |defects|, recallAssessed);
    var criticalRecall := RateOf(|critical * matched|, |critical|, recallAssessed);
    if precision.None? || recall.None? || criticalRecall.None? {
      return None;
    }
    var report := FindingsReport(
      CoverageOf(c), measurable, predictions, |Rows(c)| - predictions, |defects|,
      |matched|, |Having(states, Spurious)|, |undecided|, |ambiguous|, |unmatched|,
      |critical|, |critical * matched|, if recallAssessed then Some(missed) else None,
      precision.value, recall.value, criticalRecall.value, pending, ambiguous, unmatched);
    assert RightCounts(c, e, report) by { hide RateOf; }
    assert RightRates(c, e, report);
    assert RightLists(e, report);
    return Some(report);
  }

  /** Each of the three rates is of a part of what it is over: predictions, defects and critical defects. */
  lemma RatesAccepted(e: Evidence)
    requires Sane(e)
    ensures |MatchedDefects(e)| <= |e.predictions| && |MatchedDefects(e)| <= |e.defects|
    ensures |Critical(e.defects) * MatchedDefects(e)| <= |Critical(e.defects)|
    ensures |Critical(e.defects) - MatchedDefects(e)| ==
      |Critical(e.defects)| - |Critical(e.defects) * MatchedDefects(e)|
  {
    hide Sane, In, MatchedDefects, Critical;
    ScoresConserve(e);
    SplitSize(Critical(e.defects), MatchedDefects(e));
  }

  /** Scores every valid case, with the report its evidence determines; no `rate` call refuses its counts. */
  method ScoreFindings(c: ScoreCase) returns (r: Result<FindingsReport, Problem>)
    ensures r.Ok? <==> ValidCase(c)
    ensures r.Ok? ==> Sane(EvidenceOf(c)) && IsFindingsReport(c, EvidenceOf(c), r.value)
  {
    hide ById, Unique, FindingIds, MisplacedIds, EvidenceOf, Ids, Predictions, Sane, StateOf, Counted, Decided,
      ReferenceScope, Faithful, Critical, In, MatchedDefects, Measurable, IsFindingsReport;
    if !ValidCase(c) {
      return Err(InvalidCase);
    }
    EvidenceIsSane(c);
    ghost var e := EvidenceOf(c);
    RowsUnique(c);
    EvidenceParts(c);
    var rows := Predictions(Rows(c));
    PredictionMembers(Rows(c));
    var defects := ById(c.reference.defects);
    var judgments := Index(Judgments(c));
    IndexIsFaithful(c, judgments);
    var misplaced, misplacedDefects := MisplacedIds(Rows(c), c.texts), MisplacedIds(c.reference.defects, c.texts);
    var claims := CountClaims(e, rows, judgments);
    var states, matched, agreed :=
      Decide(e, rows, defects, judgments, claims, misplaced, misplacedDefects, AlignmentScope(c));
    DecidedMeans(e, states, matched, agreed);
    var critical := CriticalRows(defects);
    var measurable := misplaced == {} && misplacedDefects == {} && agreed;
    var report := Report(c, e, |rows|, defects, critical, states, matched, measurable);
    if report.None? {
      return Err(InvalidCounts);
    }
    r := Ok(report.value);
  }

  // ----- what the scores do not depend on --------------------------------------------------------

  /** The same case up to the order of its rows, and up to suggestions whose spans are as good or bad as before. */
  ghost predicate SameButSuggestions(c: ScoreCase, d: ScoreCase) {
    && c.texts == d.texts && c.rubric == d.rubric
    && c.reference.(defects := []) == d.reference.(defects := [])
    && (forall f: Finding :: f in c.reference.defects <==> f in d.reference.defects)
    && (forall f: Finding | f.kind.Defect? :: f in Rows(c) <==> f in Rows(d))
    && MisplacedIds(Rows(c), c.texts) == MisplacedIds(Rows(d), d.texts)
    && c.review.Some? == d.review.Some?
    && (c.review.Some? ==> c.review.value.decision == d.review.value.decision)
    && (c.review.Some? ==> (forall k: ReviewCheck :: k in c.review.value.checks <==> k in d.review.value.checks))
    && c.alignment.Some? == d.alignment.Some?
    && (c.alignment.Some? ==> c.alignment.value.provenance == d.alignment.value.provenance)
    && (forall j: Judgment | j.findingId in Ids(Predictions(Rows(c))) :: j in Judgments(c) <==> j in Judgments(d))
  }

  lemma ByIdSame(rows: seq<Finding>, others: seq<Finding>)
    requires Unique(FindingIds(rows)) && Unique(FindingIds(others))
    requires forall f :: f in rows <==> f in others
    ensures ById(rows) == ById(others) && Ids(rows) == Ids(others)
  {
    hide ById, Unique, FindingIds;
    ByIdAt(rows);
    ByIdAt(others);
    forall id ensures id in ById(rows) <==> id in ById(others) {
    }
    assert ById(rows).Keys == ById(others).Keys;
  }

  lemma JudgmentsSame(c: ScoreCase, d: ScoreCase)
    requires ValidCase(c) && ValidCase(d) && SameButSuggestions(c, d)
    requires EvidenceOf(c).predictions == EvidenceOf(d).predictions
    requires EvidenceOf(c).predictions.Keys == Ids(Predictions(Rows(c)))
    ensures EvidenceOf(c).judgments == EvidenceOf(d).judgments
  {
    hide EvidenceOf, ValidCase, MisplacedIds, Ids, ById, Unique, FindingIds, Predictions;
    EvidenceParts(c);
    EvidenceParts(d);
    var x, y := EvidenceOf(c).judgments, EvidenceOf(d).judgments;
    forall f ensures f in x <==> f in y {
    }
    forall f | f in x ensures x[f] == y[f] {
      JudgmentUnique(d, x[f], y[f]);
    }
    assert x.Keys == y.Keys;
  }

  lemma JudgmentUnique(c: ScoreCase, j: Judgment, k: Judgment)
    requires ValidCase(c) && j in Judgments(c) && k in Judgments(c) && j.findingId == k.findingId
    ensures j == k
  {
  }

  lemma EvidenceSame(c: ScoreCase, d: ScoreCase)
    requires ValidCase(c) && ValidCase(d) && SameButSuggestions(c, d)
    ensures EvidenceOf(c) == EvidenceOf(d)
  {
    hide EvidenceOf, ValidCase, Ids, ById, Unique, FindingIds, Predictions;
    RowsUnique(c);
    RowsUnique(d);
    PredictionMembers(Rows(c));
    PredictionMembers(Rows(d));
    EvidenceParts(c);
    EvidenceParts(d);
    ByIdSame(Predictions(Rows(c)), Predictions(Rows(d)));
    ByIdSame(c.reference.defects, d.reference.defects);
    ByIdHas(Predictions(Rows(c)));
    JudgmentsSame(c, d);
  }

  lemma AssessSame(c: ScoreCase, d: ScoreCase)
    requires SameButSuggestions(c, d)
    ensures Assess(c) == Assess(d)
  {
    if c.review.Some? {
      var findings, others := c.review.value.findings, d.review.value.findings;
      assert (exists f | f in findings :: Misplaced(f, c.texts)) <==> MisplacedIds(Rows(c), c.texts) != {} by {
        SomeMisplaced(findings, c.texts);
      }
      assert (exists f | f in others :: Misplaced(f, d.texts)) <==> MisplacedIds(Rows(d), d.texts) != {} by {
        SomeMisplaced(others, d.texts);
      }
    }
  }

  lemma SomeMisplaced(rows: seq<Finding>, texts: map<string, string>)
    ensures (exists f | f in rows :: Misplaced(f, texts)) <==> MisplacedIds(rows, texts) != {}
  {
    if f :| f in rows && Misplaced(f, texts) {
      assert f.id in MisplacedIds(rows, texts);
    }
  }

  lemma ContextSame(c: ScoreCase, d: ScoreCase)
    requires SameButSuggestions(c, d)
    ensures CoverageOf(c) == CoverageOf(d)
    ensures c.reference.provenance == d.reference.provenance && c.reference.inventory == d.reference.inventory
  {
    AssessSame(c, d);
  }

  lemma PredictionsFit(c: ScoreCase)
    requires ValidCase(c)
    ensures |EvidenceOf(c).predictions| <= |Rows(c)|
  {
    hide EvidenceOf, ValidCase, ById;
    RowsUnique(c);
    PredictionMembers(Rows(c));
    EvidenceParts(c);
    ByIdHas(Predictions(Rows(c)));
  }

  /** The scores do not depend on any order, nor on the well-placed suggestions, which only change their own count. */
  lemma OrderAndSuggestionsAreIrrelevant(c: ScoreCase, d: ScoreCase, r: FindingsReport)
    requires ValidCase(c) && ValidCase(d) && SameButSuggestions(c, d)
    requires Sane(EvidenceOf(c)) && IsFindingsReport(c, EvidenceOf(c), r)
    ensures r.predictions <= |Rows(d)|
    ensures Sane(EvidenceOf(d)) && IsFindingsReport(d, EvidenceOf(d), r.(suggestions := |Rows(d)| - r.predictions))
  {
    hide EvidenceOf, ValidCase, Sane, In, MatchedDefects, Measurable, Critical, CoverageOf, SameButSuggestions, RateOf,
      Rows, ReferenceScope;
    EvidenceSame(c, d);
    ContextSame(c, d);
    PredictionsFit(d);
  }
}
