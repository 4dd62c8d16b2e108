/** The plan a synthetic run builds from its cases, and why it always validates. */
module SyntheticPlan {
  import opened Plans

  datatype Case = Case(id: Id, identity: int)

  /** The digest that names the work of a case and role. */
  type Naming = (int, Role) -> Id

  function CaseRows(c: Case, name: Naming): (rows: seq<Row>)
    ensures |rows| == 3
  {
    var writer, reviewer := name(c.identity, Writer), name(c.identity, Reviewer);
    [Row(writer, c.id, Writer, []),
     Row(reviewer, c.id, Reviewer, [writer]),
     Row(name(c.identity, Revision), c.id, Revision, [writer, reviewer])]
  }

  /** Row `k` belongs to case `k / 3`. */
  predicate Built(cases: seq<Case>, name: Naming, plan: seq<Row>) {
    |plan| == 3 * |cases| && forall k | 0 <= k < |plan| :: plan[k] == CaseRows(cases[k / 3], name)[k % 3]
  }

  ghost predicate NamesApart(cases: seq<Case>, name: Naming) {
    && (forall x, r, y, s :: name(x, r) == name(y, s) ==> x == y && r == s)
    && (forall i, j | 0 <= i < j < |cases| :: cases[i].identity != cases[j].identity)
  }

  method BuildPlan(cases: seq<Case>, name: Naming) returns (plan: seq<Row>)
    ensures Built(cases, name, plan)
    ensures NamesApart(cases, name) ==> DepsFirst(plan) && (ValidPlan(plan) <==> 1 <= |plan| <= MAX_PLAN_ROWS)
  {
    plan := [];
    for i := 0 to |cases|
      invariant Built(cases[..i], name, plan)
    {
      var before := plan;
      var c := cases[i];
      var writer, reviewer := name(c.identity, Writer), name(c.identity, Reviewer);
      plan := plan + [Row(writer, c.id, Writer, []), Row(reviewer, c.id, Reviewer, [writer]),
                      Row(name(c.identity, Revision), c.id, Revision, [writer, reviewer])];
      assert forall k | |before| <= k < |plan| :: k / 3 == i && k % 3 == k - |before|;
    }
    assert cases[..|cases|] == cases;
    if NamesApart(cases, name) {
      BuiltIsValid(cases, name, plan);
    }
  }

  lemma RowOf(cases: seq<Case>, name: Naming, plan: seq<Row>, k: nat)
    requires Built(cases, name, plan) && k < |plan|
    ensures var c, role := cases[k / 3], if k % 3 == 0 then Writer else if k % 3 == 1 then Reviewer else Revision;
      plan[k].work == name(c.identity, role) && plan[k].role == role
    ensures forall d | d in plan[k].deps ::
      exists j :: 0 <= j < k && d == plan[j].work
    ensures RowWellFormed(plan[k]) || !NamesApart(cases, name)
  {
    var first := k - k % 3;
    assert plan[k] == CaseRows(cases[k / 3], name)[k % 3];
    if k % 3 != 0 {
      assert first / 3 == k / 3 && first % 3 == 0;
      assert plan[first] == CaseRows(cases[k / 3], name)[0];
    }
    if k % 3 == 2 {
      assert (first + 1) / 3 == k / 3 && (first + 1) % 3 == 1;
      assert plan[first + 1] == CaseRows(cases[k / 3], name)[1];
    }
  }

  lemma BuiltIsUnique(cases: seq<Case>, name: Naming, plan: seq<Row>)
    requires Built(cases, name, plan) && NamesApart(cases, name)
    ensures UniqueWorks(plan)
  {
    forall i, j | 0 <= i < j < |plan| ensures plan[i].work != plan[j].work {
      RowOf(cases, name, plan, i);
      RowOf(cases, name, plan, j);
    }
  }

  lemma BuiltDeps(cases: seq<Case>, name: Naming, plan: seq<Row>, k: nat)
    requires Built(cases, name, plan) && k < |plan|
    ensures forall d | d in plan[k].deps :: d in Works(plan[..k]) && d in Works(plan)
  {
    RowOf(cases, name, plan, k);
    forall d | d in plan[k].deps ensures d in Works(plan[..k]) && d in Works(plan) {
      var j :| 0 <= j < k && d == plan[j].work;
      assert plan[..k][j] == plan[j];
    }
  }

  lemma BuiltIsValid(cases: seq<Case>, name: Naming, plan: seq<Row>)
    requires Built(cases, name, plan) && NamesApart(cases, name)
    ensures DepsFirst(plan) && (ValidPlan(plan) <==> 1 <= |plan| <= MAX_PLAN_ROWS)
  {
    hide Built, NamesApart, Works, Acyclic;
    BuiltIsUnique(cases, name, plan);
    forall k | 0 <= k < |plan| ensures RowWellFormed(plan[k]) {
      RowOf(cases, name, plan, k);
    }
    forall k | 0 <= k < |plan| ensures forall d | d in plan[k].deps :: d in Works(plan[..k]) && d in Works(plan) {
      BuiltDeps(cases, name, plan, k);
    }
    EarlierDepsAcyclic(plan);
  }

  /** A plan whose dependencies all come earlier has no cycle: its own order eliminates every item. */
  lemma EarlierDepsAcyclic(plan: seq<Row>)
    requires UniqueWorks(plan) && DepsFirst(plan)
    ensures Acyclic(plan)
  {
    var order := seq(|plan|, i requires 0 <= i < |plan| => plan[i].work);
    forall i: nat | i < |order| ensures EliminatedAt(plan, order, i) {
      DepsOfRow(plan, i);
      forall d | d in plan[i].deps ensures d in Members(order[..i]) {
        var j := RowIndex(plan[..i], d);
        assert order[..i][j] == d;
      }
    }
    forall w | w in Works(plan) ensures w in Members(order) {
      assert order[RowIndex(plan, w)] == w;
    }
    EliminationExcludesCycles(plan, order);
  }
}
