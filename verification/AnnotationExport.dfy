/**
 Blind annotation tasks: a case is exported under random aliases, and every reopening
 of a session verifies each task against its case through the private mapping.
 */
module AnnotationExport {
  import opened Wrappers
  import opened Scoring

  datatype Unit = Unit(id: string, social: bool, content: string)

  datatype Source = Source(id: string, text: string, sha256: string)

  datatype CheckKind = Nonempty | Length | RequiredLiteral | ForbiddenLiteral | Citation | Fact

  /** `observations` is what a fact or citation check privately records; `waived` as in the scoring rubric. */
  datatype Check = Check(
    id: string, applicability: Applicability, kind: CheckKind, unit: Option<string>,
    minChars: Option<nat>, maxChars: Option<nat>, literal: Option<string>, waived: bool, observations: int)

  datatype Case = Case(
    identity: int, units: seq<Unit>, checks: seq<Check>, sourcesState: Inventory, sources: seq<Source>)

  /** `questions` by criterion identifier. */
  datatype Rubric = Rubric(instructions: string, questions: map<string, string>)

  datatype Criterion = Criterion(
    id: string, question: string, applicability: Applicability, kind: CheckKind, unit: Option<string>,
    minChars: Option<nat>, maxChars: Option<nat>, literal: Option<string>)

  datatype Task = Task(
    units: seq<Unit>, instructions: string, criteria: seq<Criterion>, sourcesState: Inventory, sources: seq<Source>)

  /** From alias to original. */
  datatype Mapping = Mapping(
    caseIdentity: int, units: map<string, string>, sources: map<string, string>, criteria: map<string, string>)

  /** From original to alias. */
  datatype Aliases = Aliases(units: map<string, string>, sources: map<string, string>, criteria: map<string, string>)

  /** Only length and literal checks have parameters, each its own. */
  predicate CheckOk(c: Check) {
    && (c.unit.Some? ==> c.kind.Length? || c.kind.RequiredLiteral? || c.kind.ForbiddenLiteral?)
    && ((c.minChars.Some? || c.maxChars.Some?) ==> c.kind.Length?)
    && (c.literal.Some? ==> c.kind.RequiredLiteral? || c.kind.ForbiddenLiteral?)
  }

  predicate CaseOk(c: Case, rubric: Rubric) {
    && (forall i, j | 0 <= i < j < |c.units| :: c.units[i].id != c.units[j].id)
    && (forall i, j | 0 <= i < j < |c.sources| :: c.sources[i].id != c.sources[j].id)
    && (forall i, j | 0 <= i < j < |c.checks| :: c.checks[i].id != c.checks[j].id)
    && (forall k | 0 <= k < |c.checks| :: CheckOk(c.checks[k]) && c.checks[k].id in rubric.questions)
  }

  predicate Injective(m: map<string, string>) {
    forall x, y | x in m && y in m && x != y :: m[x] != m[y]
  }

  function UnitIds(units: seq<Unit>): set<string> { set u | u in units :: u.id }

  function SourceIds(sources: seq<Source>): set<string> { set s | s in sources :: s.id }

  function CheckIds(checks: seq<Check>): set<string> { set c | c in checks :: c.id }

  /** Fresh aliases: one for every identifier of the case, all different. */
  predicate AliasesFor(a: Aliases, c: Case) {
    && a.units.Keys == UnitIds(c.units) && a.sources.Keys == SourceIds(c.sources)
    && a.criteria.Keys == CheckIds(c.checks)
    && Injective(a.units) && Injective(a.sources) && Injective(a.criteria)
  }

  function Inverse(m: map<string, string>): map<string, string>
    requires Injective(m)
  {
    map x | x in m :: m[x] := x
  }

  /** A required check that is waived is shown as inapplicable. */
  function ShownAs(c: Check): Applicability {
    if c.applicability.IsRequired? && c.waived then IsInapplicable else c.applicability
  }

  predicate KnownUnits(c: Case) {
    forall k | 0 <= k < |c.checks| && c.checks[k].unit.Some? :: c.checks[k].unit.value in UnitIds(c.units)
  }

  function Lookup(m: map<string, string>, key: Option<string>): Option<string> {
    if key.Some? && key.value in m then Some(m[key.value]) else None
  }

  /** What an annotator sees of one check. */
  function Blind(c: Check, rubric: Rubric, a: Aliases): Criterion
    requires c.id in rubric.questions && c.id in a.criteria
  {
    Criterion(a.criteria[c.id], rubric.questions[c.id], ShownAs(c), c.kind, Lookup(a.units, c.unit),
              c.minChars, c.maxChars, c.literal)
  }

  function MappingOf(c: Case, a: Aliases): Mapping
    requires AliasesFor(a, c)
  {
    Mapping(c.identity, Inverse(a.units), Inverse(a.sources), Inverse(a.criteria))
  }

  datatype Error = AnnotationBinding

  lemma ChecksOk(c: Case, rubric: Rubric, a: Aliases)
    requires CaseOk(c, rubric) && AliasesFor(a, c)
    ensures forall k | 0 <= k < |c.checks| ::
      CheckOk(c.checks[k]) && c.checks[k].id in rubric.questions && c.checks[k].id in a.criteria
  {
    forall k | 0 <= k < |c.checks| ensures c.checks[k].id in a.criteria {
      assert c.checks[k].id in CheckIds(c.checks);
    }
  }

  /** What a check does not use for its kind it does not have. */
  lemma KindDecides(check: Check, rubric: Rubric, a: Aliases, shown: Criterion)
    requires CheckOk(check) && check.id in rubric.questions && check.id in a.criteria
    requires
      var bare := Criterion(a.criteria[check.id], rubric.questions[check.id], ShownAs(check), check.kind, None, None,
                            None, None);
      shown ==
        if check.kind.Length? then
          bare.(unit := Lookup(a.units, check.unit), minChars := check.minChars, maxChars := check.maxChars)
        else if check.kind.RequiredLiteral? || check.kind.ForbiddenLiteral? then
          bare.(unit := Lookup(a.units, check.unit), literal := check.literal)
        else bare
    ensures shown == Blind(check, rubric, a)
  {
  }

  /** The criteria of a case, in order; fails at a check that names a unit the case does not have. */
  method ExportCriteria(c: Case, rubric: Rubric, a: Aliases) returns (r: Result<seq<Criterion>, Error>)
    requires CaseOk(c, rubric) && AliasesFor(a, c)
    ensures r.Ok? <==> KnownUnits(c)
    ensures r.Ok? ==>
      |r.value| == |c.checks| && forall i | 0 <= i < |c.checks| :: r.value[i] == Blind(c.checks[i], rubric, a)
  {
    hide CheckOk, CaseOk, Blind, Injective, UnitIds, CheckIds, SourceIds;
    ChecksOk(c, rubric, a);
    var criteria: seq<Criterion> := [];
    for k := 0 to |c.checks|
      invariant |criteria| == k && forall i | 0 <= i < k :: criteria[i] == Blind(c.checks[i], rubric, a)
      invariant forall i | 0 <= i < k && c.checks[i].unit.Some? :: c.checks[i].unit.value in a.units
    {
      var check := c.checks[k];
      if check.unit.Some? && check.unit.value !in a.units {
        return Err(AnnotationBinding);
      }
      var applies := if check.applicability.IsRequired? && check.waived then IsInapplicable else check.applicability;
      var shown := Criterion(a.criteria[check.id], rubric.questions[check.id], applies, check.kind, None, None, None,
                             None);
      if check.kind.Length? {
        shown := shown.(unit := Lookup(a.units, check.unit), minChars := check.minChars, maxChars := check.maxChars);
      } else if check.kind.RequiredLiteral? || check.kind.ForbiddenLiteral? {
        shown := shown.(unit := Lookup(a.units, check.unit), literal := check.literal);
      }
      KindDecides(check, rubric, a, shown);
      criteria := criteria + [shown];
    }
    r := Ok(criteria);
  }

  function RenameUnits(units: seq<Unit>, a: map<string, string>): (r: seq<Unit>)
    requires forall u | u in units :: u.id in a
    ensures |r| == |units| && forall i | 0 <= i < |units| :: r[i] == units[i].(id := a[units[i].id])
  {
    seq(|units|, i requires 0 <= i < |units| => units[i].(id := a[units[i].id]))
  }

  function RenameSources(sources: seq<Source>, a: map<string, string>): (r: seq<Source>)
    requires forall u | u in sources :: u.id in a
    ensures |r| == |sources| && forall i | 0 <= i < |sources| :: r[i] == sources[i].(id := a[sources[i].id])
  {
    seq(|sources|, i requires 0 <= i < |sources| => sources[i].(id := a[sources[i].id]))
  }

  /** The blind rendering a case is exported as. */
  ghost predicate IsBlinded(c: Case, rubric: Rubric, a: Aliases, task: Task)
    requires CaseOk(c, rubric) && AliasesFor(a, c)
  {
    && task.units == RenameUnits(c.units, a.units) && task.sources == RenameSources(c.sources, a.sources)
    && |task.criteria| == |c.checks|
    && (forall i | 0 <= i < |c.checks| :: task.criteria[i] == Blind(c.checks[i], rubric, a))
    && task.instructions == rubric.instructions && task.sourcesState == c.sourcesState
  }

  /** Exports one case under fresh aliases, with the private mapping back. */
  method Export(c: Case, rubric: Rubric, a: Aliases) returns (r: Result<(Task, Mapping), Error>)
    requires CaseOk(c, rubric) && AliasesFor(a, c)
    ensures r.Ok? <==> KnownUnits(c)
    ensures r.Ok? ==> IsBlinded(c, rubric, a, r.value.0) && r.value.1 == MappingOf(c, a)
  {
    hide KnownUnits, Blind, Inverse;
    var criteria := ExportCriteria(c, rubric, a);
    if criteria.Err? {
      return Err(criteria.error);
    }
    r := Ok((Task(RenameUnits(c.units, a.units), rubric.instructions, criteria.value, c.sourcesState,
                  RenameSources(c.sources, a.sources)), MappingOf(c, a)));
  }

  // ----- the verifier ---------------------------------------------------------------------------

  predicate TaskOk(t: Task) {
    && (forall i, j | 0 <= i < j < |t.units| :: t.units[i].id != t.units[j].id)
    && (forall i, j | 0 <= i < j < |t.sources| :: t.sources[i].id != t.sources[j].id)
    && (forall i, j | 0 <= i < j < |t.criteria| :: t.criteria[i].id != t.criteria[j].id)
  }

  function CriterionIds(criteria: seq<Criterion>): set<string> { set c | c in criteria :: c.id }

  /** The criterion a check must be shown as, under the alias at hand. */
  function Expected(id: string, c: Check, rubric: Rubric, aliases: map<string, string>): Criterion
    requires c.id in rubric.questions
  {
    Criterion(id, rubric.questions[c.id], ShownAs(c), c.kind, Lookup(aliases, c.unit), c.minChars, c.maxChars,
              c.literal)
  }

  predicate CriterionVerified(t: Criterion, m: Mapping, c: Case, rubric: Rubric)
    requires Injective(m.units)
  {
    t.id in m.criteria
    && exists k :: 0 <= k < |c.checks| && c.checks[k].id == m.criteria[t.id] && c.checks[k].id in rubric.questions
         && t == Expected(t.id, c.checks[k], rubric, Inverse(m.units))
  }

  function SourceSet(sources: seq<Source>): set<Source> { set s | s in sources }

  predicate UnitsVerified(t: Task, m: Mapping, c: Case) {
    && m.units.Keys == UnitIds(t.units) && Injective(m.units) && RenameUnits(t.units, m.units) == c.units
  }

  /** Sources are compared as a dictionary, so their order does not matter. */
  predicate SourcesVerified(t: Task, m: Mapping, c: Case) {
    && m.sources.Keys == SourceIds(t.sources) && Injective(m.sources)
    && SourceSet(RenameSources(t.sources, m.sources)) == SourceSet(c.sources)
    && t.sourcesState == c.sourcesState
  }

  predicate CriteriaVerified(t: Task, m: Mapping, c: Case, rubric: Rubric)
    requires Injective(m.units)
  {
    && m.criteria.Keys == CriterionIds(t.criteria) && m.criteria.Values == CheckIds(c.checks) && Injective(m.criteria)
    && t.instructions == rubric.instructions
    && (forall i | 0 <= i < |t.criteria| :: CriterionVerified(t.criteria[i], m, c, rubric))
  }

  /** What the verifier demands of a task, its mapping and its case. */
  predicate Verified(t: Task, m: Mapping, c: Case, rubric: Rubric) {
    && m.caseIdentity == c.identity && UnitsVerified(t, m, c) && SourcesVerified(t, m, c)
    && CriteriaVerified(t, m, c, rubric)
  }

  lemma InverseIs(m: map<string, string>)
    requires Injective(m)
    ensures forall x | x in m :: m[x] in Inverse(m) && Inverse(m)[m[x]] == x
    ensures forall y | y in Inverse(m) :: Inverse(m)[y] in m && m[Inverse(m)[y]] == y
    ensures Injective(Inverse(m))
  {
    forall x | x in m ensures m[x] in Inverse(m) && Inverse(m)[m[x]] == x {
    }
  }

  /** Undoing a renaming. */
  lemma UnitsBack(units: seq<Unit>, a: map<string, string>)
    requires Injective(a) && a.Keys == UnitIds(units)
    ensures Inverse(a).Keys == UnitIds(RenameUnits(units, a))
    ensures RenameUnits(RenameUnits(units, a), Inverse(a)) == units
  {
    hide Inverse, RenameUnits, Injective;
    InverseIs(a);
    var shown, back := RenameUnits(units, a), Inverse(a);
    forall id | id in back ensures id in UnitIds(shown) {
      var i :| 0 <= i < |units| && units[i].id == back[id];
      assert shown[i] in shown;
    }
    forall id | id in UnitIds(shown) ensures id in back {
      var i :| 0 <= i < |shown| && shown[i].id == id;
      assert units[i] in units;
    }
    assert RenameUnits(shown, back) == units;
  }

  lemma SourcesBack(sources: seq<Source>, a: map<string, string>)
    requires Injective(a) && a.Keys == SourceIds(sources)
    ensures Inverse(a).Keys == SourceIds(RenameSources(sources, a))
    ensures RenameSources(RenameSources(sources, a), Inverse(a)) == sources
  {
    hide Inverse;
    InverseIs(a);
    var shown, back := RenameSources(sources, a), Inverse(a);
    forall id | id in back ensures id in SourceIds(shown) {
      var i :| 0 <= i < |sources| && sources[i].id == back[id];
      assert shown[i] in shown;
    }
    forall id | id in SourceIds(shown) ensures id in back {
      var i :| 0 <= i < |shown| && shown[i].id == id;
      assert sources[i] in sources;
    }
    assert RenameSources(shown, back) == sources;
  }

  /** Under known units, the verifier's alias table is the exporter's. */
  lemma LookupBack(a: map<string, string>, unit: Option<string>)
    requires Injective(a)
    ensures Injective(Inverse(a)) && Lookup(Inverse(Inverse(a)), unit) == Lookup(a, unit)
  {
    InverseIs(a);
    InverseIs(Inverse(a));
    if unit.Some? && unit.value in a {
      assert Inverse(a)[a[unit.value]] == unit.value;
    }
  }

  lemma CriteriaExport(c: Case, rubric: Rubric, a: Aliases, t: Task)
    requires CaseOk(c, rubric) && AliasesFor(a, c) && IsBlinded(c, rubric, a, t)
    ensures Injective(Inverse(a.units)) && CriteriaVerified(t, MappingOf(c, a), c, rubric)
  {
    hide Inverse, RenameUnits, RenameSources;
    InverseIs(a.units);
    InverseIs(a.criteria);
    var m := MappingOf(c, a);
    forall i | 0 <= i < |t.criteria| ensures CriterionVerified(t.criteria[i], m, c, rubric) {
      assert c.checks[i] in c.checks;
      LookupBack(a.units, c.checks[i].unit);
      assert t.criteria[i] == Expected(t.criteria[i].id, c.checks[i], rubric, Inverse(m.units));
    }
    CriteriaKeys(c, rubric, a, t);
  }

  lemma CriteriaKeys(c: Case, rubric: Rubric, a: Aliases, t: Task)
    requires CaseOk(c, rubric) && AliasesFor(a, c) && IsBlinded(c, rubric, a, t)
    ensures Inverse(a.criteria).Keys == CriterionIds(t.criteria) && Inverse(a.criteria).Values == CheckIds(c.checks)
  {
    hide Inverse, RenameUnits, RenameSources, Lookup;
    InverseIs(a.criteria);
    var back := Inverse(a.criteria);
    forall id | id in back ensures id in CriterionIds(t.criteria) {
      var i :| 0 <= i < |c.checks| && c.checks[i].id == back[id];
      assert t.criteria[i] in t.criteria;
    }
    forall id | id in CriterionIds(t.criteria) ensures id in back {
      var i :| 0 <= i < |t.criteria| && t.criteria[i].id == id;
      assert c.checks[i] in c.checks;
    }
    forall x | x in CheckIds(c.checks) ensures x in back.Values {
      assert back[a.criteria[x]] == x;
    }
  }

  /** Every exported task passes the verifier under its own mapping. */
  lemma ExportVerifies(c: Case, rubric: Rubric, a: Aliases, t: Task)
    requires CaseOk(c, rubric) && AliasesFor(a, c) && IsBlinded(c, rubric, a, t)
    ensures Verified(t, MappingOf(c, a), c, rubric)
  {
    hide Inverse, RenameUnits, RenameSources, CriteriaVerified;
    InverseIs(a.units);
    InverseIs(a.sources);
    UnitsBack(c.units, a.units);
    SourcesBack(c.sources, a.sources);
    CriteriaExport(c, rubric, a, t);
  }

  // ----- what the verifier lets through ------------------------------------------------------

  function Recovered(m: Mapping): Aliases
    requires Injective(m.units) && Injective(m.sources) && Injective(m.criteria)
  {
    Aliases(Inverse(m.units), Inverse(m.sources), Inverse(m.criteria))
  }

  lemma UnitsExact(t: Task, m: Mapping, c: Case)
    requires UnitsVerified(t, m, c)
    ensures Inverse(m.units).Keys == UnitIds(c.units) && Injective(Inverse(m.units))
    ensures t.units == RenameUnits(c.units, Inverse(m.units))
  {
    hide Inverse, RenameUnits, UnitIds;
    InverseIs(m.units);
    UnitsBack(t.units, m.units);
  }

  lemma SourcesExact(t: Task, m: Mapping, c: Case)
    requires SourcesVerified(t, m, c)
    ensures Inverse(m.sources).Keys == SourceIds(c.sources) && Injective(Inverse(m.sources))
    ensures forall x :: x in t.sources <==> x in RenameSources(c.sources, Inverse(m.sources))
  {
    hide Inverse, SourcesVerified, RenameSources;
    SourceKeys(t, m, c);
    SourcesNamed(t, m, c);
    InverseIs(m.sources);
    SourcesBothWays(t.sources, c.sources, m.sources, Inverse(m.sources));
  }

  /** Named back, the shown sources are those of the case. */
  lemma SourcesNamed(t: Task, m: Mapping, c: Case)
    requires SourcesVerified(t, m, c)
    ensures Injective(m.sources) && m.sources.Keys == SourceIds(t.sources)
    ensures forall u | u in t.sources :: u.id in m.sources
    ensures forall x :: x in c.sources <==> x in RenameSources(t.sources, m.sources)
  {
    hide Injective, RenameSources;
    var named := RenameSources(t.sources, m.sources);
    forall x ensures x in c.sources <==> x in named {
      assert x in SourceSet(named) <==> x in SourceSet(c.sources);
    }
  }

  lemma SourceKeys(t: Task, m: Mapping, c: Case)
    requires SourcesVerified(t, m, c)
    ensures Injective(m.sources) && Injective(Inverse(m.sources)) && Inverse(m.sources).Keys == SourceIds(c.sources)
  {
    SourcesNamed(t, m, c);
    hide Inverse, SourcesVerified, RenameSources, Injective, SourceIds;
    InverseIs(m.sources);
    var a := Inverse(m.sources);
    forall id ensures id in a <==> id in SourceIds(c.sources) {
      if id in a {
        IdOfCase(t.sources, c.sources, m.sources, a[id]);
      }
      if id in SourceIds(c.sources) {
        IdOfShown(t.sources, c.sources, m.sources, id);
      }
    }
  }

  /** What a shown source is named back to is a source of the case. */
  lemma IdOfCase(shown: seq<Source>, original: seq<Source>, m: map<string, string>, alias: string)
    requires alias in SourceIds(shown) && forall u | u in shown :: u.id in m
    requires forall x | x in RenameSources(shown, m) :: x in original
    ensures m[alias] in SourceIds(original)
  {
    var named := RenameSources(shown, m);
    hide RenameSources;
    var i :| 0 <= i < |shown| && shown[i].id == alias;
    assert named[i] in named && named[i].id == m[alias];
  }

  lemma IdOfShown(shown: seq<Source>, original: seq<Source>, m: map<string, string>, id: string)
    requires id in SourceIds(original) && forall u | u in shown :: u.id in m
    requires forall x | x in original :: x in RenameSources(shown, m)
    ensures exists alias :: alias in m && m[alias] == id
  {
    var named := RenameSources(shown, m);
    hide RenameSources;
    var x :| x in original && x.id == id;
    var i :| 0 <= i < |named| && named[i] == x;
    assert shown[i].id in m;
  }

  lemma SourcesBothWays(shown: seq<Source>, original: seq<Source>, m: map<string, string>, a: map<string, string>)
    requires forall u | u in shown :: u.id in m
    requires forall u | u in original :: u.id in a
    requires forall x | x in m :: m[x] in a && a[m[x]] == x
    requires forall y | y in a :: a[y] in m && m[a[y]] == y
    requires forall x :: x in original <==> x in RenameSources(shown, m)
    ensures forall x :: x in shown <==> x in RenameSources(original, a)
  {
    var named, again := RenameSources(shown, m), RenameSources(original, a);
    forall x | x in shown ensures x in again {
      var i :| 0 <= i < |shown| && shown[i] == x;
      assert named[i] in original;
      var j :| 0 <= j < |original| && original[j] == named[i];
      assert again[j] == x;
    }
    forall x | x in again ensures x in shown {
      var j :| 0 <= j < |again| && again[j] == x;
      assert original[j] in named;
      var i :| 0 <= i < |named| && named[i] == original[j];
      assert shown[i] == x;
    }
  }

  ghost predicate ShowsSome(x: Criterion, c: Case, m: Mapping, rubric: Rubric)
    requires Injective(m.units)
  {
    exists k :: 0 <= k < |c.checks| && Shows(x, c.checks[k], m, rubric)
  }

  ghost predicate ShownBySome(t: Task, check: Check, m: Mapping, rubric: Rubric)
    requires Injective(m.units)
  {
    exists i :: 0 <= i < |t.criteria| && Shows(t.criteria[i], check, m, rubric)
  }

  lemma EveryCriterionShows(t: Task, m: Mapping, c: Case, rubric: Rubric, x: Criterion)
    requires Injective(m.units) && CriteriaVerified(t, m, c, rubric) && x in t.criteria
    ensures ShowsSome(x, c, m, rubric)
  {
    hide Inverse, Expected;
    var i :| 0 <= i < |t.criteria| && t.criteria[i] == x;
    assert CriterionVerified(t.criteria[i], m, c, rubric);
    var k :| 0 <= k < |c.checks| && c.checks[k].id == m.criteria[x.id] && c.checks[k].id in rubric.questions
      && x == Expected(x.id, c.checks[k], rubric, Inverse(m.units));
    assert Shows(x, c.checks[k], m, rubric);
  }

  lemma EveryCheckIsShown(t: Task, m: Mapping, c: Case, rubric: Rubric, k: nat)
    requires CaseOk(c, rubric) && Injective(m.units) && CriteriaVerified(t, m, c, rubric) && k < |c.checks|
    ensures ShownBySome(t, c.checks[k], m, rubric)
  {
    hide Inverse, Expected, CriterionVerified;
    assert c.checks[k] in c.checks && c.checks[k].id in m.criteria.Values;
    var id :| id in m.criteria && m.criteria[id] == c.checks[k].id;
    var x :| x in t.criteria && x.id == id;
    EveryCriterionShows(t, m, c, rubric, x);
    var j :| 0 <= j < |c.checks| && Shows(x, c.checks[j], m, rubric);
    assert j == k;
    var i :| 0 <= i < |t.criteria| && t.criteria[i] == x;
    assert Shows(t.criteria[i], c.checks[k], m, rubric);
  }

  lemma ValuesAreKeys(m: map<string, string>)
    requires Injective(m)
    ensures Inverse(m).Keys == m.Values
  {
    hide Inverse;
    InverseIs(m);
    forall id | id in m.Values ensures id in Inverse(m) {
      var x :| x in m && m[x] == id;
    }
    forall id | id in Inverse(m) ensures id in m.Values {
      assert m[Inverse(m)[id]] == id;
    }
  }

  /** The criterion is exactly what this check is shown as. */
  ghost predicate Shows(t: Criterion, check: Check, m: Mapping, rubric: Rubric)
    requires Injective(m.units)
  {
    && t.id in m.criteria && m.criteria[t.id] == check.id && check.id in rubric.questions
    && t == Expected(t.id, check, rubric, Inverse(m.units))
  }

  /** What passes the verifier is the case under the mapping's aliases: the very units in order, the sources and
      criteria complete and exact, in whatever order. */
  lemma VerifiedIsExported(t: Task, m: Mapping, c: Case, rubric: Rubric)
    requires CaseOk(c, rubric) && Verified(t, m, c, rubric)
    ensures AliasesFor(Recovered(m), c)
    ensures var a := Recovered(m);
      && t.units == RenameUnits(c.units, a.units)
      && (forall x :: x in t.sources <==> x in RenameSources(c.sources, a.sources))
      && (forall x :: x in t.criteria <==> x in BlindSet(c, rubric, a))
      && t.instructions == rubric.instructions && t.sourcesState == c.sourcesState
  {
    hide Inverse, RenameUnits, RenameSources, CriteriaVerified, UnitIds, SourceIds;
    UnitsExact(t, m, c);
    SourcesExact(t, m, c);
    CriteriaKeysExact(t, m, c, rubric);
    CriteriaSame(t, m, c, rubric);
  }

  lemma CriteriaKeysExact(t: Task, m: Mapping, c: Case, rubric: Rubric)
    requires CaseOk(c, rubric) && Injective(m.units) && CriteriaVerified(t, m, c, rubric)
    ensures Injective(m.criteria) && Inverse(m.criteria).Keys == CheckIds(c.checks) && Injective(Inverse(m.criteria))
    ensures t.instructions == rubric.instructions
  {
    hide Inverse;
    InverseIs(m.criteria);
    ValuesAreKeys(m.criteria);
  }

  /** What every check of the case is shown as. */
  ghost function BlindSet(c: Case, rubric: Rubric, a: Aliases): set<Criterion>
    requires CaseOk(c, rubric) && AliasesFor(a, c)
  {
    set check | check in c.checks :: Blind(check, rubric, a)
  }

  lemma CriteriaSame(t: Task, m: Mapping, c: Case, rubric: Rubric)
    requires CaseOk(c, rubric) && Verified(t, m, c, rubric) && AliasesFor(Recovered(m), c)
    ensures forall x :: x in t.criteria <==> x in BlindSet(c, rubric, Recovered(m))
  {
    hide CriteriaVerified, Blind, Shows;
    CriteriaKeysExact(t, m, c, rubric);
    var a := Recovered(m);
    forall x | x in t.criteria ensures x in BlindSet(c, rubric, a) {
      EveryCriterionShows(t, m, c, rubric, x);
      var k :| 0 <= k < |c.checks| && Shows(x, c.checks[k], m, rubric);
      ShownIsBlind(x, c, k, m, rubric);
    }
    forall x | x in BlindSet(c, rubric, a) ensures x in t.criteria {
      var check :| check in c.checks && Blind(check, rubric, a) == x;
      var k :| 0 <= k < |c.checks| && c.checks[k] == check;
      EveryCheckIsShown(t, m, c, rubric, k);
      var i :| 0 <= i < |t.criteria| && Shows(t.criteria[i], c.checks[k], m, rubric);
      ShownIsBlind(t.criteria[i], c, k, m, rubric);
    }
  }

  lemma ShownIsBlind(x: Criterion, c: Case, k: nat, m: Mapping, rubric: Rubric)
    requires Injective(m.units) && Injective(m.sources) && Injective(m.criteria)
    requires k < |c.checks| && Shows(x, c.checks[k], m, rubric)
    ensures c.checks[k].id in Recovered(m).criteria && x == Blind(c.checks[k], rubric, Recovered(m))
  {
    InverseIs(m.criteria);
  }

  // ----- blindness and the way back ----------------------------------------------------------------

  /** New names for everything a case names. */
  datatype Names = Names(units: map<string, string>, sources: map<string, string>, checks: map<string, string>)

  /** No two things get the same name, and a check's question stays its question. */
  predicate NamesFor(n: Names, c: Case, rubric: Rubric)
    requires CaseOk(c, rubric)
  {
    && n.units.Keys == UnitIds(c.units) && n.sources.Keys == SourceIds(c.sources) && n.checks.Keys == CheckIds(c.checks)
    && Injective(n.units) && Injective(n.sources) && Injective(n.checks)
    && forall k | 0 <= k < |c.checks| ::
         && c.checks[k].id in n.checks && n.checks[c.checks[k].id] in rubric.questions
         && rubric.questions[n.checks[c.checks[k].id]] == rubric.questions[c.checks[k].id]
  }

  function Renamed(check: Check, n: Names, observations: int): Check
    requires check.id in n.checks
  {
    check.(id := n.checks[check.id], unit := Lookup(n.units, check.unit), observations := observations)
  }

  /** The case under other names, with another identity and other private observations. */
  function Disguised(c: Case, rubric: Rubric, n: Names, identity: int, observations: nat -> int): Case
    requires CaseOk(c, rubric) && NamesFor(n, c, rubric)
  {
    c.(identity := identity, units := RenameUnits(c.units, n.units), sources := RenameSources(c.sources, n.sources),
       checks := seq(|c.checks|, k requires 0 <= k < |c.checks| => Renamed(c.checks[k], n, observations(k))))
  }

  /** The same aliases, for the new names. */
  function Carried(m: map<string, string>, a: map<string, string>): map<string, string>
    requires Injective(m) && a.Keys == m.Keys
  {
    map y | y in Inverse(m) :: a[Inverse(m)[y]]
  }

  function CarriedAliases(n: Names, a: Aliases, c: Case, rubric: Rubric): Aliases
    requires CaseOk(c, rubric) && NamesFor(n, c, rubric) && AliasesFor(a, c)
  {
    Aliases(Carried(n.units, a.units), Carried(n.sources, a.sources), Carried(n.checks, a.criteria))
  }

  lemma CarriedIs(m: map<string, string>, a: map<string, string>)
    requires Injective(m) && a.Keys == m.Keys
    ensures Carried(m, a).Keys == Inverse(m).Keys
    ensures forall x | x in a :: m[x] in Carried(m, a) && Carried(m, a)[m[x]] == a[x]
    ensures Injective(a) ==> Injective(Carried(m, a))
  {
    hide Inverse;
    InverseIs(m);
  }

  predicate UnitsApart(units: seq<Unit>) {
    forall i, j | 0 <= i < j < |units| :: units[i].id != units[j].id
  }

  predicate SourcesApart(sources: seq<Source>) {
    forall i, j | 0 <= i < j < |sources| :: sources[i].id != sources[j].id
  }

  lemma UnitsStayApart(units: seq<Unit>, m: map<string, string>)
    requires Injective(m) && UnitsApart(units) && forall u | u in units :: u.id in m
    ensures UnitsApart(RenameUnits(units, m))
  {
    hide RenameUnits;
    var shown := RenameUnits(units, m);
    forall i, j | 0 <= i < j < |shown| ensures shown[i].id != shown[j].id {
      assert units[i] in units && units[j] in units;
    }
  }

  /** Renaming, and then using the carried aliases, is using the aliases. */
  lemma UnitsTwice(units: seq<Unit>, m: map<string, string>, a: map<string, string>)
    requires Injective(m) && a.Keys == m.Keys && (forall u | u in units :: u.id in m)
    ensures forall u | u in RenameUnits(units, m) :: u.id in Carried(m, a)
    ensures RenameUnits(RenameUnits(units, m), Carried(m, a)) == RenameUnits(units, a)
  {
    hide Carried, RenameUnits, Inverse, Injective;
    CarriedIs(m, a);
    var shown := RenameUnits(units, m);
    forall i | 0 <= i < |shown| ensures shown[i].id in Carried(m, a) && Carried(m, a)[shown[i].id] == a[units[i].id] {
      assert units[i] in units;
    }
    assert RenameUnits(shown, Carried(m, a)) == RenameUnits(units, a);
  }

  lemma UnitsDisguised(units: seq<Unit>, m: map<string, string>, a: map<string, string>)
    requires Injective(m) && m.Keys == UnitIds(units) == a.Keys && UnitsApart(units)
    ensures UnitsApart(RenameUnits(units, m)) && UnitIds(RenameUnits(units, m)) == Carried(m, a).Keys
    ensures RenameUnits(RenameUnits(units, m), Carried(m, a)) == RenameUnits(units, a)
  {
    forall u | u in units ensures u.id in m {
    }
    hide Carried, RenameUnits, Inverse, UnitIds, UnitsApart, Injective;
    CarriedIs(m, a);
    UnitsBack(units, m);
    UnitsStayApart(units, m);
    UnitsTwice(units, m, a);
  }

  lemma SourcesStayApart(sources: seq<Source>, m: map<string, string>)
    requires Injective(m) && SourcesApart(sources) && forall u | u in sources :: u.id in m
    ensures SourcesApart(RenameSources(sources, m))
  {
    hide RenameSources;
    var shown := RenameSources(sources, m);
    forall i, j | 0 <= i < j < |shown| ensures shown[i].id != shown[j].id {
      assert sources[i] in sources && sources[j] in sources;
    }
  }

  /** Renaming, and then using the carried aliases, is using the aliases. */
  lemma SourcesTwice(sources: seq<Source>, m: map<string, string>, a: map<string, string>)
    requires Injective(m) && a.Keys == m.Keys && (forall u | u in sources :: u.id in m)
    ensures forall u | u in RenameSources(sources, m) :: u.id in Carried(m, a)
    ensures RenameSources(RenameSources(sources, m), Carried(m, a)) == RenameSources(sources, a)
  {
    hide Carried, RenameSources, Inverse, Injective;
    CarriedIs(m, a);
    var shown := RenameSources(sources, m);
    forall i | 0 <= i < |shown| ensures shown[i].id in Carried(m, a) && Carried(m, a)[shown[i].id] == a[sources[i].id] {
      assert sources[i] in sources;
    }
    assert RenameSources(shown, Carried(m, a)) == RenameSources(sources, a);
  }

  lemma SourcesDisguised(sources: seq<Source>, m: map<string, string>, a: map<string, string>)
    requires Injective(m) && m.Keys == SourceIds(sources) == a.Keys && SourcesApart(sources)
    ensures SourcesApart(RenameSources(sources, m)) && SourceIds(RenameSources(sources, m)) == Carried(m, a).Keys
    ensures RenameSources(RenameSources(sources, m), Carried(m, a)) == RenameSources(sources, a)
  {
    forall u | u in sources ensures u.id in m {
    }
    hide Carried, RenameSources, Inverse, SourceIds, SourcesApart, Injective;
    CarriedIs(m, a);
    SourcesBack(sources, m);
    SourcesStayApart(sources, m);
    SourcesTwice(sources, m, a);
  }

  predicate ChecksApart(checks: seq<Check>) {
    forall i, j | 0 <= i < j < |checks| :: checks[i].id != checks[j].id
  }

  lemma ChecksStayApart(checks: seq<Check>, renamed: seq<Check>, m: map<string, string>)
    requires Injective(m) && ChecksApart(checks) && |renamed| == |checks|
    requires forall k | 0 <= k < |checks| :: checks[k].id in m && renamed[k].id == m[checks[k].id]
    ensures ChecksApart(renamed)
  {
    forall i, j | 0 <= i < j < |renamed| ensures renamed[i].id != renamed[j].id {
      assert checks[i].id != checks[j].id;
    }
  }

  lemma CheckIdsRenamed(checks: seq<Check>, renamed: seq<Check>, m: map<string, string>)
    requires Injective(m) && m.Keys == CheckIds(checks) && |renamed| == |checks|
    requires forall k | 0 <= k < |checks| :: checks[k].id in m && renamed[k].id == m[checks[k].id]
    ensures CheckIds(renamed) == Inverse(m).Keys
  {
    hide Inverse;
    InverseIs(m);
    forall id | id in Inverse(m) ensures id in CheckIds(renamed) {
      var i :| 0 <= i < |checks| && checks[i].id == Inverse(m)[id];
      assert renamed[i] in renamed;
    }
    forall id | id in CheckIds(renamed) ensures id in Inverse(m) {
      var i :| 0 <= i < |renamed| && renamed[i].id == id;
    }
  }

  lemma ChecksDisguised(c: Case, rubric: Rubric, n: Names, a: Aliases, identity: int, observations: nat -> int)
    requires CaseOk(c, rubric) && NamesFor(n, c, rubric) && AliasesFor(a, c) && KnownUnits(c)
    ensures var d, b := Disguised(c, rubric, n, identity, observations), Carried(n.checks, a.criteria);
      && ChecksApart(d.checks) && CheckIds(d.checks) == b.Keys
      && (forall k | 0 <= k < |d.checks| :: CheckOk(d.checks[k]) && d.checks[k].id in rubric.questions)
  {
    hide Carried, RenameUnits, RenameSources, UnitIds, SourceIds, Inverse, Lookup, Injective, CheckIds;
    CarriedIs(n.checks, a.criteria);
    var d := Disguised(c, rubric, n, identity, observations);
    forall k | 0 <= k < |c.checks| ensures c.checks[k].id in n.checks && d.checks[k].id == n.checks[c.checks[k].id] {
      assert d.checks[k] == Renamed(c.checks[k], n, observations(k));
    }
    ChecksStayApart(c.checks, d.checks, n.checks);
    CheckIdsRenamed(c.checks, d.checks, n.checks);
    forall k | 0 <= k < |d.checks| ensures CheckOk(d.checks[k]) && d.checks[k].id in rubric.questions {
      CheckStaysOk(c.checks[k], n, observations(k));
    }
  }

  lemma CheckStaysOk(check: Check, n: Names, observations: int)
    requires CheckOk(check) && check.id in n.checks
    ensures CheckOk(Renamed(check, n, observations))
  {
  }

  /** The disguise is a case of its own, exported under the carried aliases. */
  lemma DisguiseIsCase(c: Case, rubric: Rubric, n: Names, a: Aliases, identity: int, observations: nat -> int)
    requires CaseOk(c, rubric) && NamesFor(n, c, rubric) && AliasesFor(a, c) && KnownUnits(c)
    ensures var d := Disguised(c, rubric, n, identity, observations);
      CaseOk(d, rubric) && AliasesFor(CarriedAliases(n, a, c, rubric), d)
  {
    hide Carried, RenameUnits, RenameSources, UnitIds, SourceIds, CheckIds, CheckOk, Renamed, Inverse;
    UnitsDisguised(c.units, n.units, a.units);
    SourcesDisguised(c.sources, n.sources, a.sources);
    ChecksDisguised(c, rubric, n, a, identity, observations);
    CarriedIs(n.units, a.units);
    CarriedIs(n.sources, a.sources);
    CarriedIs(n.checks, a.criteria);
  }

  /** The two checks are shown as the same criterion. */
  predicate ShownAlike(x: Check, a: Aliases, y: Check, b: Aliases, rubric: Rubric) {
    && x.id in rubric.questions && x.id in a.criteria && y.id in rubric.questions && y.id in b.criteria
    && Blind(x, rubric, a) == Blind(y, rubric, b)
  }

  lemma BlindTwice(c: Case, rubric: Rubric, n: Names, a: Aliases, k: nat, observations: int)
    requires CaseOk(c, rubric) && NamesFor(n, c, rubric) && AliasesFor(a, c) && KnownUnits(c) && k < |c.checks|
    ensures c.checks[k].id in n.checks
    ensures ShownAlike(c.checks[k], a, Renamed(c.checks[k], n, observations), CarriedAliases(n, a, c, rubric), rubric)
  {
    hide Carried, UnitIds, SourceIds, Inverse;
    CarriedIs(n.units, a.units);
    CarriedIs(n.checks, a.criteria);
    assert c.checks[k] in c.checks;
  }

  /** Whatever the names, the identity and the private observations are, the task is the same: an annotator cannot tell
      the two cases apart. */
  lemma TasksAreBlind(c: Case, rubric: Rubric, n: Names, a: Aliases, identity: int, observations: nat -> int, t: Task)
    requires CaseOk(c, rubric) && NamesFor(n, c, rubric) && AliasesFor(a, c) && KnownUnits(c)
    ensures var d, b := Disguised(c, rubric, n, identity, observations), CarriedAliases(n, a, c, rubric);
      CaseOk(d, rubric) && AliasesFor(b, d) && (IsBlinded(c, rubric, a, t) <==> IsBlinded(d, rubric, b, t))
  {
    hide Carried, RenameUnits, RenameSources, CaseOk, AliasesFor, KnownUnits, NamesFor, Blind, Renamed;
    DisguiseIsCase(c, rubric, n, a, identity, observations);
    SameTexts(c, rubric, n, a);
    var d, b := Disguised(c, rubric, n, identity, observations), CarriedAliases(n, a, c, rubric);
    forall k | 0 <= k < |c.checks| ensures ShownAlike(c.checks[k], a, d.checks[k], b, rubric) {
      BlindTwice(c, rubric, n, a, k, observations(k));
    }
  }

  lemma SameTexts(c: Case, rubric: Rubric, n: Names, a: Aliases)
    requires CaseOk(c, rubric) && NamesFor(n, c, rubric) && AliasesFor(a, c)
    ensures var units, sources := RenameUnits(c.units, n.units), RenameSources(c.sources, n.sources);
      && (forall u | u in units :: u.id in Carried(n.units, a.units))
      && (forall u | u in sources :: u.id in Carried(n.sources, a.sources))
      && RenameUnits(units, Carried(n.units, a.units)) == RenameUnits(c.units, a.units)
      && RenameSources(sources, Carried(n.sources, a.sources)) == RenameSources(c.sources, a.sources)
  {
    hide Carried, RenameUnits, RenameSources;
    UnitsDisguised(c.units, n.units, a.units);
    SourcesDisguised(c.sources, n.sources, a.sources);
  }

  function Texts(units: seq<Unit>): map<string, string>
    requires forall i, j | 0 <= i < j < |units| :: units[i].id != units[j].id
  {
    map i | 0 <= i < |units| :: units[i].id := units[i].content
  }

  /** A defect span fits the exported text exactly when it fits the case's text once its unit is named back. */
  lemma SpansTravel(t: Task, m: Mapping, c: Case, rubric: Rubric, s: Span)
    requires TaskOk(t) && CaseOk(c, rubric) && Verified(t, m, c, rubric) && s.item in m.units
    ensures SpanMatches(s, Texts(t.units)) <==> SpanMatches(s.(item := m.units[s.item]), Texts(c.units))
  {
    hide CriteriaVerified, SourcesVerified, Inverse, RenameUnits, Texts;
    var i :| 0 <= i < |t.units| && t.units[i].id == s.item;
    assert c.units[i] == t.units[i].(id := m.units[s.item]);
    TextAt(t.units, i);
    TextAt(c.units, i);
  }

  lemma TextAt(units: seq<Unit>, i: nat)
    requires i < |units| && forall i, j | 0 <= i < j < |units| :: units[i].id != units[j].id
    ensures units[i].id in Texts(units) && Texts(units)[units[i].id] == units[i].content
  {
    assert units[i].id in Texts(units);
  }

  /** The verifier's run over a task. */
  method VerifyTask(t: Task, m: Mapping, c: Case, rubric: Rubric) returns (ok: bool)
    requires TaskOk(t) && CaseOk(c, rubric)
    ensures ok <==> Verified(t, m, c, rubric)
  {
    hide RenameUnits, RenameSources, Expected;
    if m.caseIdentity != c.identity || !UnitsVerified(t, m, c) || !SourcesVerified(t, m, c) {
      return false;
    }
    if m.criteria.Keys != CriterionIds(t.criteria) || m.criteria.Values != CheckIds(c.checks)
      || !Injective(m.criteria) || t.instructions != rubric.instructions {
      return false;
    }
    var aliases := Inverse(m.units);
    for i := 0 to |t.criteria|
      invariant forall j | 0 <= j < i :: CriterionVerified(t.criteria[j], m, c, rubric)
    {
      var shown := t.criteria[i];
      assert shown in t.criteria && shown.id in m.criteria;
      var k := CheckNamed(c, m.criteria[shown.id]);
      if shown != Expected(shown.id, c.checks[k], rubric, aliases) {
        assert !CriterionVerified(t.criteria[i], m, c, rubric);
        return false;
      }
      assert CriterionVerified(t.criteria[i], m, c, rubric);
    }
    ok := true;
  }

  method CheckNamed(c: Case, id: string) returns (k: nat)
    requires id in CheckIds(c.checks)
    ensures k < |c.checks| && c.checks[k].id == id
  {
    k := 0;
    while c.checks[k].id != id
      invariant k < |c.checks| && exists j :: k <= j < |c.checks| && c.checks[j].id == id
      decreases |c.checks| - k
    {
      k := k + 1;
    }
  }
}
