/**
 The immutable work plan of a run and its validation: structural checks followed
 by Kahn's traversal. The main result is that the traversal accepts a
 structurally well-formed plan exactly when its dependency graph has no cycle.
 */
module Plans {

  /** Identifiers are compared and ordered, never inspected: a number stands for each one. */
  datatype Id = Id(key: int)

  const MAX_PLAN_ROWS: nat := 30_000

  datatype Role = Writer | Reviewer | Revision

  datatype Row = Row(work: Id, caseId: Id, role: Role, deps: seq<Id>)

  /** There is always an identifier nobody uses yet. */
  lemma {:induction false} UnusedExists(used: set<Id>)
    ensures exists a :: a !in used && forall b | b in used :: b.key < a.key
  {
    if used == {} {
      assert Id(0) !in used;
    } else {
      var x :| x in used;
      UnusedExists(used - {x});
      var a :| a !in used - {x} && forall b | b in used - {x} :: b.key < a.key;
      var top := Id((if a.key > x.key then a.key else x.key) + 1);
      assert top !in used && forall b | b in used :: b.key < top.key;
    }
  }

  // ----- structural well-formedness -------------------------------------------

  predicate Distinct<T(==)>(s: seq<T>) {
    forall i, j | 0 <= i < j < |s| :: s[i] != s[j]
  }

  predicate RowWellFormed(row: Row) {
    |row.deps| <= MAX_PLAN_ROWS && Distinct(row.deps)
  }

  function Works(plan: seq<Row>): set<Id> {
    set i | 0 <= i < |plan| :: plan[i].work
  }

  predicate UniqueWorks(plan: seq<Row>) {
    forall i, j | 0 <= i < j < |plan| :: plan[i].work != plan[j].work
  }

  predicate KnownDeps(plan: seq<Row>) {
    forall i | 0 <= i < |plan| :: forall d | d in plan[i].deps :: d in Works(plan)
  }

  /** Every dependency comes earlier in the plan. */
  predicate DepsFirst(plan: seq<Row>) {
    forall k | 0 <= k < |plan| :: forall d | d in plan[k].deps :: d in Works(plan[..k])
  }

  predicate WellFormed(plan: seq<Row>) {
    && 1 <= |plan| <= MAX_PLAN_ROWS
    && (forall i | 0 <= i < |plan| :: RowWellFormed(plan[i]))
    && UniqueWorks(plan)
    && KnownDeps(plan)
  }

  // ----- the dependency graph --------------------------------------------------

  /** The dependencies an item lists, empty for an item outside the plan. */
  function DepsOf(plan: seq<Row>, w: Id): seq<Id> {
    if plan == [] then []
    else if plan[|plan| - 1].work == w then plan[|plan| - 1].deps
    else DepsOf(plan[..|plan| - 1], w)
  }

  /** Position of an item's row. */
  function RowIndex(plan: seq<Row>, w: Id): (i: nat)
    requires w in Works(plan)
    ensures i < |plan| && plan[i].work == w
  {
    var last := |plan| - 1;
    if plan[last].work == w then last else
      assert forall k | 0 <= k < last :: plan[..last][k] == plan[k];
      var k :| 0 <= k < |plan| && plan[k].work == w;
      assert plan[..last][k].work == w;
      RowIndex(plan[..last], w)
  }

  lemma {:induction false} DepsOfRow(plan: seq<Row>, i: nat)
    requires UniqueWorks(plan) && i < |plan|
    ensures DepsOf(plan, plan[i].work) == plan[i].deps
  {
    if i != |plan| - 1 {
      DepsOfRow(plan[..|plan| - 1], i);
    }
  }

  lemma {:induction false} DepsOfOutside(plan: seq<Row>, w: Id)
    requires w !in Works(plan)
    ensures DepsOf(plan, w) == []
  {
    if plan != [] {
      DepsOfOutside(plan[..|plan| - 1], w);
    }
  }

  function DepSet(plan: seq<Row>, w: Id): set<Id> {
    set d | d in DepsOf(plan, w)
  }

  /** A walk takes a dependency edge at position `i`. */
  ghost predicate EdgeAt(plan: seq<Row>, p: seq<Id>, i: nat)
    requires i + 1 < |p|
  {
    p[i + 1] in DepSet(plan, p[i])
  }

  /** A walk along dependency edges visiting every node of `p` in turn. */
  ghost predicate IsWalk(plan: seq<Row>, p: seq<Id>) {
    forall i: nat | i + 1 < |p| :: EdgeAt(plan, p, i)
  }

  ghost predicate IsCycle(plan: seq<Row>, p: seq<Id>) {
    2 <= |p| && IsWalk(plan, p) && p[0] == p[|p| - 1]
  }

  ghost predicate Acyclic(plan: seq<Row>) {
    forall p :: !IsCycle(plan, p)
  }

  ghost predicate ValidPlan(plan: seq<Row>) {
    WellFormed(plan) && Acyclic(plan)
  }

  // ----- why an elimination order excludes cycles --------------------------------

  ghost function Members(s: seq<Id>): set<Id> {
    set x | x in s
  }

  /** The dependencies of the item eliminated at `i` were eliminated before it. */
  ghost predicate EliminatedAt(plan: seq<Row>, order: seq<Id>, i: nat)
    requires i < |order|
  {
    DepSet(plan, order[i]) <= Members(order[..i])
  }

  ghost predicate Eliminated(plan: seq<Row>, order: seq<Id>) {
    Distinct(order) && forall i: nat | i < |order| :: EliminatedAt(plan, order, i)
  }

  /** Position of `w` in an elimination order. */
  ghost function Position(order: seq<Id>, w: Id): (i: nat)
    requires w in order
    ensures i < |order| && order[i] == w
  {
    var i: nat :| i < |order| && order[i] == w;
    i
  }

  lemma EdgeDescends(plan: seq<Row>, order: seq<Id>, w: Id, d: Id)
    requires Eliminated(plan, order) && w in order && d in DepSet(plan, w)
    ensures d in order && Position(order, d) < Position(order, w)
  {
    var i := Position(order, w);
    assert EliminatedAt(plan, order, i);
    var j :| 0 <= j < i && order[..i][j] == d;
    assert order[j] == d;
  }

  lemma {:induction false} WalkDescends(plan: seq<Row>, order: seq<Id>, p: seq<Id>, k: nat)
    requires Eliminated(plan, order) && 2 <= |p| && IsWalk(plan, p) && p[0] in order
    requires 1 <= k < |p|
    ensures p[k] in order && Position(order, p[k]) < Position(order, p[0])
  {
    if k > 1 {
      WalkDescends(plan, order, p, k - 1);
    }
    assert EdgeAt(plan, p, k - 1);
    EdgeDescends(plan, order, p[k - 1], p[k]);
  }

  lemma EliminationExcludesCycles(plan: seq<Row>, order: seq<Id>)
    requires Eliminated(plan, order) && Works(plan) <= Members(order)
    ensures Acyclic(plan)
  {
    forall p ensures !IsCycle(plan, p) {
      if IsCycle(plan, p) {
        assert EdgeAt(plan, p, 0);
        if p[0] !in Works(plan) {
          DepsOfOutside(plan, p[0]);
        }
        WalkDescends(plan, order, p, |p| - 1);
      }
    }
  }

  lemma AppendEliminated(plan: seq<Row>, order: seq<Id>, item: Id)
    requires Eliminated(plan, order) && item !in order
    requires DepSet(plan, item) <= Members(order)
    ensures Eliminated(plan, order + [item])
    ensures Members(order + [item]) == Members(order) + {item}
  {
    var longer := order + [item];
    forall i: nat | i < |longer| ensures EliminatedAt(plan, longer, i) {
      if i < |order| {
        assert EliminatedAt(plan, order, i);
        assert longer[..i] == order[..i];
      } else {
        assert longer[..i] == order;
      }
    }
  }

  // ----- why a stuck traversal exhibits a cycle ------------------------------------

  /** Every member of `stuck` still waits for another member of it. */
  ghost predicate Stuck(plan: seq<Row>, stuck: set<Id>) {
    forall w | w in stuck :: DepSet(plan, w) * stuck != {}
  }

  lemma ExtendWalk(plan: seq<Row>, p: seq<Id>, d: Id)
    requires p != [] && IsWalk(plan, p) && d in DepSet(plan, p[|p| - 1])
    ensures IsWalk(plan, p + [d])
  {
    var q := p + [d];
    forall i: nat | i + 1 < |q| ensures EdgeAt(plan, q, i) {
      if i + 1 < |p| {
        assert EdgeAt(plan, p, i);
      }
    }
  }

  lemma {:induction false} WalkInside(plan: seq<Row>, stuck: set<Id>, start: Id, n: nat) returns (p: seq<Id>)
    requires Stuck(plan, stuck) && start in stuck
    ensures |p| == n + 1 && Members(p) <= stuck && IsWalk(plan, p)
  {
    if n == 0 {
      p := [start];
    } else {
      var q := WalkInside(plan, stuck, start, n - 1);
      assert q[n - 1] in Members(q);
      var d :| d in DepSet(plan, q[n - 1]) * stuck;
      ExtendWalk(plan, q, d);
      p := q + [d];
    }
  }

  /** More places than members: some member is met twice. */
  lemma {:induction false} Pigeonhole(p: seq<Id>, s: set<Id>) returns (i: nat, j: nat)
    requires |p| > |s| && Members(p) <= s
    ensures i < j < |p| && p[i] == p[j]
  {
    var last := p[|p| - 1];
    var front := p[..|p| - 1];
    assert last in Members(p);
    if last in front {
      i :| 0 <= i < |front| && front[i] == last;
      j := |p| - 1;
    } else {
      forall x | x in Members(front) ensures x in s - {last} { assert x in Members(p); }
      i, j := Pigeonhole(front, s - {last});
    }
  }

  lemma StuckHasCycle(plan: seq<Row>, stuck: set<Id>)
    requires Stuck(plan, stuck) && stuck != {}
    ensures !Acyclic(plan)
  {
    var start :| start in stuck;
    var p := WalkInside(plan, stuck, start, |stuck|);
    var i, j := Pigeonhole(p, stuck);
    var loop := p[i..j + 1];
    forall k: nat | k + 1 < |loop| ensures EdgeAt(plan, loop, k) {
      assert EdgeAt(plan, p, i + k);
    }
    assert IsCycle(plan, loop);
  }

  /** When no remaining item is free, the remaining items are stuck. */
  lemma BlockedItemsAreStuck(plan: seq<Row>, removed: set<Id>)
    requires UniqueWorks(plan) && KnownDeps(plan)
    requires forall w | w in Works(plan) - removed :: DepSet(plan, w) - removed != {}
    ensures Stuck(plan, Works(plan) - removed)
  {
    forall w | w in Works(plan) - removed
      ensures DepSet(plan, w) * (Works(plan) - removed) != {}
    {
      var d :| d in DepSet(plan, w) - removed;
      DepsOfRow(plan, RowIndex(plan, w));
      assert d in Works(plan);
      assert d in DepSet(plan, w) * (Works(plan) - removed);
    }
  }

  // ----- counting -----------------------------------------------------------------

  lemma {:induction false} DistinctCardinality(s: seq<Id>)
    requires Distinct(s)
    ensures |Members(s)| == |s|
  {
    if s != [] {
      var front, last := s[..|s| - 1], s[|s| - 1];
      DistinctCardinality(front);
      assert Members(s) == Members(front) + {last};
      assert last !in Members(front);
    }
  }

  lemma SubsetSize<T>(s: set<T>, t: set<T>)
    requires s <= t
    ensures |s| <= |t|
    ensures |s| == |t| ==> s == t
    ensures |t - s| == |t| - |s|
  {
    assert t == s + (t - s);
  }

  lemma {:induction false} UniqueWorksCardinality(plan: seq<Row>)
    requires UniqueWorks(plan)
    ensures |Works(plan)| == |plan|
  {
    if plan != [] {
      var front, last := plan[..|plan| - 1], plan[|plan| - 1];
      UniqueWorksCardinality(front);
      WorksSnoc(front, last);
      assert plan == front + [last];
      assert last.work !in Works(front);
    }
  }

  lemma WorksSnoc(front: seq<Row>, last: Row)
    ensures Works(front + [last]) == Works(front) + {last.work}
  {
    var plan := front + [last];
    forall w | w in Works(front) + {last.work} ensures w in Works(plan) {
      if w in Works(front) {
        var i :| 0 <= i < |front| && front[i].work == w;
        assert plan[i].work == w;
      } else {
        assert plan[|front|].work == w;
      }
    }
  }

  // ----- the validator ------------------------------------------------------------

  /** First loop: the per-row checks, collecting the known work identifiers. */
  method CheckRows(plan: seq<Row>) returns (ok: bool, known: set<Id>)
    ensures ok <==>
      1 <= |plan| <= MAX_PLAN_ROWS && (forall i | 0 <= i < |plan| :: RowWellFormed(plan[i])) && UniqueWorks(plan)
    ensures ok ==> known == Works(plan)
  {
    known := {};
    if !(1 <= |plan| <= MAX_PLAN_ROWS) {
      return false, known;
    }
    var i := 0;
    while i < |plan|
      invariant 0 <= i <= |plan|
      invariant known == Works(plan[..i])
      invariant forall k | 0 <= k < i :: RowWellFormed(plan[k])
      invariant UniqueWorks(plan[..i])
    {
      var row := plan[i];
      if !RowWellFormed(row) || row.work in known {
        return false, known;
      }
      assert plan[..i + 1] == plan[..i] + [row];
      WorksSnoc(plan[..i], row);
      known := known + {row.work};
      i := i + 1;
    }
    assert plan[..i] == plan;
    ok := true;
  }

  /** `children` lists, for each item, exactly the items that depend on it, once each. */
  ghost predicate ChildrenOf(plan: seq<Row>, children: map<Id, seq<Id>>) {
    && (forall d | d in children :: Distinct(children[d]))
    && (forall d | d in children :: forall w :: w in children[d] <==> d in DepSet(plan, w))
  }

  lemma RowIsNew(plan: seq<Row>, i: nat)
    requires UniqueWorks(plan) && i < |plan|
    ensures plan[i].work !in Works(plan[..i]) && DepSet(plan[..i], plan[i].work) == {}
  {
    DepsOfOutside(plan[..i], plan[i].work);
  }

  lemma NoRows(known: set<Id>)
    ensures ChildrenOf([], map w | w in known :: [])
  {
  }

  /** Second loop: in-degrees and reverse edges; fails on an unknown dependency. */
  method BuildGraph(plan: seq<Row>, known: set<Id>) returns (ok: bool, degree: map<Id, int>, children: map<Id, seq<Id>>)
    requires forall i | 0 <= i < |plan| :: RowWellFormed(plan[i])
    requires UniqueWorks(plan) && known == Works(plan)
    ensures ok <==> KnownDeps(plan)
    ensures ok ==> degree.Keys == known && children.Keys == known && ChildrenOf(plan, children)
    ensures ok ==> forall w | w in known :: degree[w] == |DepSet(plan, w)|
  {
    hide DepSet, DepsOf, ChildrenOf, Distinct, UniqueWorks;
    degree := map[];
    children := map w | w in known :: [];
    NoRows(known);
    var i := 0;
    while i < |plan|
      invariant 0 <= i <= |plan|
      invariant children.Keys == known && degree.Keys == Works(plan[..i])
      invariant forall w | w in degree :: degree[w] == |DepSet(plan[..i], w)|
      invariant forall k | 0 <= k < i :: forall d | d in plan[k].deps :: d in known
      invariant ChildrenOf(plan[..i], children)
    {
      var row := plan[i];
      ghost var before := plan[..i];
      assert plan[..i + 1] == before + [row];
      WorksSnoc(before, row);
      RowIsNew(plan, i);
      RowDegree(before, row);
      degree := degree[row.work := |row.deps|];
      var linked;
      linked, children := LinkRow(known, row, children, before);
      if !linked {
        return false, degree, children;
      }
      i := i + 1;
    }
    assert plan[..i] == plan;
    ok := true;
  }

  lemma RowDegree(before: seq<Row>, row: Row)
    requires RowWellFormed(row)
    ensures DepSet(before + [row], row.work) == Members(row.deps) && |Members(row.deps)| == |row.deps|
    ensures forall w | w != row.work :: DepSet(before + [row], w) == DepSet(before, w)
  {
    DistinctCardinality(row.deps);
    assert (before + [row])[..|before|] == before;
  }

  /** Every parent of the row has it appended once. */
  ghost predicate Linked(row: Row, children0: map<Id, seq<Id>>, children: map<Id, seq<Id>>) {
    && children.Keys == children0.Keys
    && forall d | d in children :: children[d] == if d in row.deps then children0[d] + [row.work] else children0[d]
  }

  lemma LinkedChildren(row: Row, children0: map<Id, seq<Id>>, children: map<Id, seq<Id>>, before: seq<Row>)
    requires RowWellFormed(row) && ChildrenOf(before, children0) && DepSet(before, row.work) == {}
    requires Linked(row, children0, children)
    ensures ChildrenOf(before + [row], children)
  {
    hide DepSet, DepsOf;
    RowDegree(before, row);
    forall d | d in children
      ensures Distinct(children[d]) && forall w :: w in children[d] <==> d in DepSet(before + [row], w)
    {
      assert row.work !in children0[d];
    }
  }

  method LinkRow(known: set<Id>, row: Row, children0: map<Id, seq<Id>>, ghost before: seq<Row>)
      returns (ok: bool, children: map<Id, seq<Id>>)
    requires RowWellFormed(row) && children0.Keys == known
    requires ChildrenOf(before, children0) && DepSet(before, row.work) == {}
    ensures ok <==> forall d | d in row.deps :: d in known
    ensures children.Keys == known
    ensures ok ==> ChildrenOf(before + [row], children)
  {
    hide DepSet, DepsOf, ChildrenOf;
    children := children0;
    var j := 0;
    while j < |row.deps|
      invariant 0 <= j <= |row.deps|
      invariant children.Keys == known
      invariant forall k | 0 <= k < j :: row.deps[k] in known
      invariant forall d | d in children ::
          children[d] == if d in row.deps[..j] then children0[d] + [row.work] else children0[d]
    {
      var dep := row.deps[j];
      assert row.deps[..j + 1] == row.deps[..j] + [dep];
      if dep !in known {
        return false, children;
      }
      children := children[dep := children[dep] + [row.work]];
      j := j + 1;
    }
    assert row.deps[..j] == row.deps;
    LinkedChildren(row, children0, children, before);
    ok := true;
  }

  /** `ready` holds exactly the items left with nothing to wait for, once each. */
  ghost predicate Queue(works: set<Id>, degree: map<Id, int>, removed: set<Id>, ready: seq<Id>)
    requires works <= degree.Keys
  {
    Distinct(ready) && forall w :: w in ready <==> w in works && w !in removed && degree[w] == 0
  }

  /** The degree of an item is the number of its dependencies still in the graph. */
  ghost predicate Degrees(plan: seq<Row>, degree: map<Id, int>, removed: set<Id>) {
    forall w | w in degree :: degree[w] == |DepSet(plan, w) - removed|
  }

  lemma NothingEliminated(plan: seq<Row>)
    ensures Eliminated(plan, []) && Members([]) == {}
  {
  }

  lemma EliminatedIsDistinct(plan: seq<Row>, order: seq<Id>)
    requires Eliminated(plan, order)
    ensures Distinct(order)
  {
  }

  /** Third loop: Kahn's traversal; `seen` counts the eliminated items. */
  method Traverse(plan: seq<Row>, degree0: map<Id, int>, children: map<Id, seq<Id>>) returns (seen: nat)
    requires UniqueWorks(plan) && KnownDeps(plan)
    requires degree0.Keys == Works(plan) && children.Keys == Works(plan) && ChildrenOf(plan, children)
    requires Degrees(plan, degree0, {})
    ensures seen <= |Works(plan)|
    ensures seen == |Works(plan)| <==> Acyclic(plan)
  {
    hide Degrees, Eliminated, Acyclic, KnownDeps, UniqueWorks, DepSet, Queue, Distinct;
    var degree := degree0;
    var ready: seq<Id> := InitiallyReady(plan, degree);
    ghost var order: seq<Id>, removed: set<Id> := [], {};
    seen := 0;
    NothingEliminated(plan);
    while ready != []
      invariant degree.Keys == Works(plan) && removed <= Works(plan) && seen == |order|
      invariant Queue(degree.Keys, degree, removed, ready)
      invariant Degrees(plan, degree, removed)
      invariant Eliminated(plan, order) && Members(order) == removed
      decreases |Works(plan) - removed|
    {
      seen := seen + 1;
      FreeHead(plan, degree, removed, order, ready);
      order := order + [ready[0]];
      ghost var next := removed + {ready[0]};
      degree, ready := Release(plan, degree, ready, children[ready[0]], removed);
      removed := next;
    }
    TraversalVerdict(plan, degree, order);
  }

  /** The head of the queue waits for nothing, so it may be eliminated next. */
  lemma FreeHead(plan: seq<Row>, degree: map<Id, int>, removed: set<Id>, order: seq<Id>, ready: seq<Id>)
    requires ready != [] && Queue(degree.Keys, degree, removed, ready) && Degrees(plan, degree, removed)
    requires Eliminated(plan, order) && Members(order) == removed
    requires UniqueWorks(plan) && KnownDeps(plan) && degree.Keys == Works(plan)
    ensures ready[0] in degree && ready[0] !in removed
    ensures Eliminated(plan, order + [ready[0]]) && Members(order + [ready[0]]) == removed + {ready[0]}
    ensures forall w | ready[0] in DepSet(plan, w) :: w in degree && w !in removed && w != ready[0]
    ensures |degree.Keys - (removed + {ready[0]})| < |degree.Keys - removed|
  {
    var item := ready[0];
    assert item in ready;
    FreeItem(plan, order, item);
    AppendEliminated(plan, order, item);
    assert degree.Keys - (removed + {item}) == (degree.Keys - removed) - {item};
    assert item in degree.Keys - removed;
    forall w | item in DepSet(plan, w) ensures w in degree && w !in removed && w != item {
      if w !in Works(plan) {
        DepsOfOutside(plan, w);
      }
      if w in removed {
        EdgeDescends(plan, order, w, item);
      }
    }
  }

  lemma FreeItem(plan: seq<Row>, order: seq<Id>, item: Id)
    requires |DepSet(plan, item) - Members(order)| == 0
    ensures DepSet(plan, item) <= Members(order)
  {
    var waiting := DepSet(plan, item) - Members(order);
    assert waiting == {};
    assert DepSet(plan, item) <= waiting + Members(order);
  }

  lemma TraversalVerdict(plan: seq<Row>, degree: map<Id, int>, order: seq<Id>)
    requires UniqueWorks(plan) && KnownDeps(plan) && degree.Keys == Works(plan)
    requires Members(order) <= Works(plan) && Eliminated(plan, order)
    requires Queue(Works(plan), degree, Members(order), []) && Degrees(plan, degree, Members(order))
    ensures |order| <= |Works(plan)|
    ensures |order| == |Works(plan)| <==> Acyclic(plan)
  {
    hide Eliminated, Acyclic, DepSet, Stuck, Queue, Degrees;
    EliminatedIsDistinct(plan, order);
    DistinctCardinality(order);
    SubsetSize(Members(order), Works(plan));
    if |order| == |Works(plan)| {
      EliminationExcludesCycles(plan, order);
    } else {
      EmptyQueueBlocks(plan, degree, Members(order));
      BlockedItemsAreStuck(plan, Members(order));
      assert |Works(plan) - Members(order)| > 0;
      StuckHasCycle(plan, Works(plan) - Members(order));
    }
  }

  /** With nothing left in the queue, every remaining item waits for a remaining dependency. */
  lemma EmptyQueueBlocks(plan: seq<Row>, degree: map<Id, int>, removed: set<Id>)
    requires degree.Keys == Works(plan) && Queue(Works(plan), degree, removed, []) && Degrees(plan, degree, removed)
    ensures forall w | w in Works(plan) - removed :: DepSet(plan, w) - removed != {}
  {
    hide DepSet;
    forall w | w in Works(plan) - removed ensures DepSet(plan, w) - removed != {} {
      assert w !in [];
      assert degree[w] != 0;
    }
  }

  /** The initial queue: every item without dependencies. */
  method InitiallyReady(plan: seq<Row>, degree: map<Id, int>) returns (ready: seq<Id>)
    requires UniqueWorks(plan) && degree.Keys == Works(plan)
    ensures Queue(Works(plan), degree, {}, ready)
  {
    ready := [];
    for i := 0 to |plan|
      invariant Distinct(ready)
      invariant forall w :: w in ready <==> w in Works(plan[..i]) && w in degree && degree[w] == 0
    {
      assert plan[..i + 1] == plan[..i] + [plan[i]];
      WorksSnoc(plan[..i], plan[i]);
      assert plan[i].work !in Works(plan[..i]);
      if degree[plan[i].work] == 0 {
        ready := ready + [plan[i].work];
      }
    }
    assert plan[..|plan|] == plan;
  }

  /** Inner loop: take the head off the queue and decrement each of its children exactly once. */
  method Release(plan: seq<Row>, degree0: map<Id, int>, ready0: seq<Id>, kids: seq<Id>, ghost removed: set<Id>)
      returns (degree: map<Id, int>, ready: seq<Id>)
    requires ready0 != [] && Queue(degree0.Keys, degree0, removed, ready0) && Degrees(plan, degree0, removed)
    requires Distinct(kids) && forall w :: w in kids <==> ready0[0] in DepSet(plan, w)
    requires forall w | w in kids :: w in degree0 && w !in removed && w != ready0[0]
    ensures degree.Keys == degree0.Keys
    ensures Degrees(plan, degree, removed + {ready0[0]})
    ensures Queue(degree.Keys, degree, removed + {ready0[0]}, ready)
  {
    hide DepSet;
    ghost var item, done := ready0[0], {};
    degree, ready := degree0, ready0[1..];
    HeadLeaves(degree0, removed, ready0);
    var i := 0;
    while i < |kids|
      invariant 0 <= i <= |kids| && done == Members(kids[..i])
      invariant degree.Keys == degree0.Keys
      invariant forall w | w in degree :: degree[w] == if w in done then degree0[w] - 1 else degree0[w]
      invariant Queue(degree.Keys, degree, removed + {item}, ready)
    {
      NextKid(kids, i);
      Waiting(plan, degree0, removed, item, kids[i]);
      degree, ready := Decrement(degree, ready, kids[i], removed + {item});
      done := done + {kids[i]};
      i := i + 1;
    }
    assert kids[..i] == kids;
    ReleasedDegrees(plan, degree0, degree, kids, item, removed);
  }

  lemma NextKid(kids: seq<Id>, i: nat)
    requires Distinct(kids) && i < |kids|
    ensures kids[i] in kids && kids[i] !in Members(kids[..i])
    ensures Members(kids[..i + 1]) == Members(kids[..i]) + {kids[i]}
  {
    assert kids[..i + 1] == kids[..i] + [kids[i]];
  }

  /** One edge disappears; a child left with nothing to wait for joins the queue. */
  method Decrement(degree0: map<Id, int>, ready0: seq<Id>, child: Id, ghost gone: set<Id>)
      returns (degree: map<Id, int>, ready: seq<Id>)
    requires child in degree0 && degree0[child] > 0 && child !in gone
    requires Queue(degree0.Keys, degree0, gone, ready0)
    ensures degree == degree0[child := degree0[child] - 1] && degree.Keys == degree0.Keys
    ensures Queue(degree.Keys, degree, gone, ready)
  {
    degree, ready := degree0[child := degree0[child] - 1], ready0;
    assert child !in ready;
    if degree[child] == 0 {
      ready := ready + [child];
    }
  }

  lemma ReleasedDegrees(plan: seq<Row>, degree0: map<Id, int>, degree: map<Id, int>, kids: seq<Id>, item: Id,
                        removed: set<Id>)
    requires Degrees(plan, degree0, removed) && degree.Keys == degree0.Keys && item !in removed
    requires forall w :: w in kids <==> item in DepSet(plan, w)
    requires forall w | w in degree :: degree[w] == if w in kids then degree0[w] - 1 else degree0[w]
    ensures Degrees(plan, degree, removed + {item})
  {
    forall w | w in degree ensures degree[w] == |DepSet(plan, w) - (removed + {item})| {
      if w in kids {
        Waiting(plan, degree0, removed, item, w);
      } else {
        assert DepSet(plan, w) - (removed + {item}) == DepSet(plan, w) - removed;
      }
    }
  }

  lemma HeadLeaves(degree: map<Id, int>, removed: set<Id>, ready: seq<Id>)
    requires ready != [] && Queue(degree.Keys, degree, removed, ready)
    ensures ready[0] !in removed
    ensures Queue(degree.Keys, degree, removed + {ready[0]}, ready[1..])
  {
    assert ready[0] in ready;
    assert ready == [ready[0]] + ready[1..];
    assert ready[0] !in ready[1..];
    forall w ensures w in ready[1..] <==> w in ready && w != ready[0] { }
  }

  lemma Waiting(plan: seq<Row>, degree: map<Id, int>, removed: set<Id>, item: Id, w: Id)
    requires Degrees(plan, degree, removed) && w in degree
    requires item !in removed && item in DepSet(plan, w)
    ensures degree[w] > 0
    ensures degree[w] - 1 == |DepSet(plan, w) - (removed + {item})|
  {
    var left := DepSet(plan, w) - removed;
    assert item in left;
    assert DepSet(plan, w) - (removed + {item}) == left - {item};
  }

  /** The whole validator: accepts exactly the well-formed plans without a cycle. */
  method ValidatePlan(plan: seq<Row>) returns (ok: bool)
    ensures ok <==> ValidPlan(plan)
  {
    var rows, known := CheckRows(plan);
    if !rows {
      return false;
    }
    var edges, degree, children := BuildGraph(plan, known);
    if !edges {
      return false;
    }
    forall w | w in degree ensures degree[w] == |DepSet(plan, w) - {}| {
      assert DepSet(plan, w) - {} == DepSet(plan, w);
    }
    var seen := Traverse(plan, degree, children);
    UniqueWorksCardinality(plan);
    ok := seen == |plan|;
  }
}
