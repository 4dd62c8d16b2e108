/** The closure of the distributions that `draftbench[pilot]` requires, by a worklist over requirements. */
module RuntimeDependencies {
  import opened Wrappers

  /** An environment marker; everything but `extra` is already evaluated. */
  datatype Marker =
    | Fixed(value: bool)
    | ExtraIs(name: string)
    | ExtraIsNot(name: string)
    | And(left: Marker, right: Marker)
    | Or(left: Marker, right: Marker)

  /** `direct` marks a URL requirement; `specifier` holds the versions it contains, if there is one. */
  datatype Requirement = Requirement(
    name: string, direct: bool, specifier: Option<set<string>>, extras: set<string>, marker: Option<Marker>)

  /** Installed metadata; a `requires` line that is not a requirement is `None`. */
  datatype Distribution = Distribution(
    name: string, version: string, versionOk: bool, provided: set<string>, needs: seq<Option<Requirement>>)

  type Environment = map<string, Distribution>

  /** A distribution visited for its base (`""`) or for one extra. */
  datatype Node = Node(name: string, extra: string)

  const ROOT: Requirement := Requirement("draftbench", false, None, {"pilot"}, None)

  function Holds(m: Marker, extra: string): bool {
    match m
    case Fixed(value) => value
    case ExtraIs(name) => name == extra
    case ExtraIsNot(name) => name != extra
    case And(left, right) => Holds(left, extra) && Holds(right, extra)
    case Or(left, right) => Holds(left, extra) || Holds(right, extra)
  }

  predicate Active(r: Requirement, extra: string) {
    r.marker.None? || Holds(r.marker.value, extra)
  }

  predicate Accepts(r: Requirement, version: string) {
    r.specifier.None? || version in r.specifier.value
  }

  function Nodes(r: Requirement): set<Node> {
    set extra | extra in {""} + r.extras :: Node(r.name, extra)
  }

  /** A requirement the environment meets. */
  predicate Satisfied(env: Environment, r: Requirement) {
    && !r.direct
    && r.name in env && env[r.name].name == r.name && env[r.name].versionOk
    && (r.specifier.None? || env[r.name].version in r.specifier.value)
    && r.extras <= env[r.name].provided
  }

  /** The `i`th line of the node's distribution is a requirement active for the node's extra. */
  predicate Edge(env: Environment, node: Node, i: int) {
    && node.name in env && 0 <= i < |env[node.name].needs|
    && env[node.name].needs[i].Some?
    && var marker := env[node.name].needs[i].value.marker; marker.None? || Holds(marker.value, node.extra)
  }

  function Target(env: Environment, node: Node, i: int): Requirement
    requires Edge(env, node, i)
  {
    env[node.name].needs[i].value
  }

  /** `s` holds the root's nodes and everything an active edge of its nodes asks for. */
  ghost predicate Closed(env: Environment, s: set<Node>) {
    && Nodes(ROOT) <= s
    && forall node, i | node in s && Edge(env, node, i) :: Nodes(Target(env, node, i)) <= s
  }

  /** Every requirement that arises inside `s` can be read and is met. */
  ghost predicate Sound(env: Environment, s: set<Node>) {
    && Satisfied(env, ROOT)
    && (forall node, i | node in s && Edge(env, node, i) :: Satisfied(env, Target(env, node, i)))
    && (forall node, i | node in s && node.name in env && 0 <= i < |env[node.name].needs| ::
          env[node.name].needs[i].Some?)
  }

  ghost predicate LeastClosed(env: Environment, s: set<Node>) {
    Closed(env, s) && forall t | Closed(env, t) :: s <= t
  }

  /** The closure does not depend on the order of the visits: there is only one. */
  lemma LeastClosedIsUnique(env: Environment, s: set<Node>, t: set<Node>)
    requires LeastClosed(env, s) && LeastClosed(env, t)
    ensures s == t
  {
  }

  function Universe(env: Environment): set<Node> {
    set name, extra | name in env && extra in {""} + env[name].provided :: Node(name, extra)
  }

  // ----- what the worklist knows ------------------------------------------------------------

  /** No closed set can do without what was visited and what is pending, and no sound one fails a pending
      requirement. */
  ghost predicate Needed(env: Environment, visited: set<Node>, pending: seq<Requirement>) {
    && (forall t | Closed(env, t) :: visited <= t)
    && (forall t, r | Closed(env, t) && r in pending :: Nodes(r) <= t)
    && (forall t, r | Closed(env, t) && Sound(env, t) && r in pending :: Satisfied(env, r))
  }

  /** A requirement that is already checked and visited, or still waits. */
  ghost predicate Handled(env: Environment, visited: set<Node>, pending: seq<Requirement>, r: Requirement) {
    r in pending || (Satisfied(env, r) && Nodes(r) <= visited)
  }

  ghost predicate Expanded(env: Environment, visited: set<Node>, pending: seq<Requirement>, node: Node) {
    && node.name in env
    && (forall i | 0 <= i < |env[node.name].needs| :: env[node.name].needs[i].Some?)
    && (forall i | Edge(env, node, i) :: Handled(env, visited, pending, Target(env, node, i)))
  }

  /** The versions found so far are those of the visited distributions. */
  ghost predicate Recorded(env: Environment, visited: set<Node>, versions: map<string, string>) {
    && (forall name | name in versions ::
          name in env && env[name].name == name && env[name].versionOk && versions[name] == env[name].version)
    && (forall node | node in visited :: node.name in versions)
  }

  /** The active requirements of one node, in the order listed; `None` when a line cannot be read. */
  method Children(env: Environment, node: Node) returns (found: Option<seq<Requirement>>)
    requires node.name in env
    ensures found.Some? <==>
      (forall i | 0 <= i < |env[node.name].needs| :: env[node.name].needs[i].Some?)
    ensures found.Some? ==>
      (forall i | Edge(env, node, i) :: Target(env, node, i) in found.value)
    ensures found.Some? ==>
      (forall r | r in found.value :: exists i :: Edge(env, node, i) && Target(env, node, i) == r)
  {
    var lines := env[node.name].needs;
    var out: seq<Requirement> := [];
    for k := 0 to |lines|
      invariant forall i | 0 <= i < k :: lines[i].Some?
      invariant forall i | 0 <= i < k && Edge(env, node, i) :: Target(env, node, i) in out
      invariant forall r | r in out :: exists i :: Edge(env, node, i) && Target(env, node, i) == r
    {
      if lines[k].None? {
        return None;
      }
      if Active(lines[k].value, node.extra) {
        assert Edge(env, node, k) && Target(env, node, k) == lines[k].value;
        out := out + [lines[k].value];
      }
    }
    return Some(out);
  }

  /** Visiting a needed node: its children wait, everything else is as before. */
  lemma VisitKeeps(env: Environment, visited: set<Node>, pending: seq<Requirement>, node: Node, more: seq<Requirement>)
    requires Needed(env, visited, pending)
    requires forall t | Closed(env, t) :: node in t
    requires forall r | r in more :: exists i :: Edge(env, node, i) && Target(env, node, i) == r
    ensures Needed(env, visited + {node}, pending + more)
  {
    forall t, r | Closed(env, t) && r in pending + more
      ensures Nodes(r) <= t && (Sound(env, t) ==> Satisfied(env, r))
    {
      if r in more {
        var i :| Edge(env, node, i) && Target(env, node, i) == r;
        assert node in t;
      }
    }
  }

  /** Visit the base and the requested extras of one satisfied requirement, in any order. */
  method Visit(env: Environment, r: Requirement, visited: set<Node>, pending: seq<Requirement>)
    returns (ok: bool, seen: set<Node>, waiting: seq<Requirement>)
    requires Needed(env, visited, pending + [r]) && Satisfied(env, r) && visited <= Universe(env)
    requires forall node | node in visited :: Expanded(env, visited, pending + [r], node)
    ensures ok ==> Needed(env, seen, waiting) && seen == visited + Nodes(r) && seen <= Universe(env)
    ensures ok ==> (forall node | node in seen :: Expanded(env, seen, waiting, node))
    ensures ok ==> pending <= waiting && (seen == visited ==> waiting == pending)
    ensures !ok ==> !exists t :: Closed(env, t) && Sound(env, t)
  {
    var rest := {""} + r.extras;
    seen, waiting := visited, pending;
    while rest != {}
      invariant rest <= {""} + r.extras
      invariant seen ==
        visited + Nodes(r) - (set extra | extra in rest && Node(r.name, extra) !in visited :: Node(r.name, extra))
      invariant Needed(env, seen, waiting + [r])
      invariant forall node | node in seen :: Expanded(env, seen, waiting + [r], node)
      invariant pending <= waiting && (seen == visited ==> waiting == pending)
    {
      var extra :| extra in rest;
      var node := Node(r.name, extra);
      if node !in seen {
        var found := Children(env, node);
        if found.None? {
          assert r in waiting + [r] && node in Nodes(r);
          return false, seen, waiting;
        }
        VisitKeeps(env, seen, waiting + [r], node, found.value);
        ghost var before, queue := seen, waiting;
        seen, waiting := seen + {node}, waiting + found.value;
        Reorder(env, seen, queue + [r] + found.value, waiting + [r]);
        VisitExpands(env, before, queue + [r], node, found.value, waiting + [r]);
      }
      rest := rest - {extra};
    }
    assert Needed(env, seen, waiting);
    forall node | node in seen ensures Expanded(env, seen, waiting, node) {
      assert Expanded(env, seen, waiting + [r], node);
    }
    return true, seen, waiting;
  }

  lemma Reorder(env: Environment, visited: set<Node>, pending: seq<Requirement>, other: seq<Requirement>)
    requires Needed(env, visited, pending) && forall r | r in other :: r in pending
    ensures Needed(env, visited, other)
  {
  }

  lemma VisitExpands(env: Environment, visited: set<Node>, pending: seq<Requirement>, node: Node,
                     more: seq<Requirement>, queue: seq<Requirement>)
    requires forall each | each in visited :: Expanded(env, visited, pending, each)
    requires node.name in env && forall i | 0 <= i < |env[node.name].needs| :: env[node.name].needs[i].Some?
    requires forall i | Edge(env, node, i) :: Target(env, node, i) in more
    requires forall r | r in pending + more :: r in queue
    ensures forall each | each in visited + {node} :: Expanded(env, visited + {node}, queue, each)
  {
    forall each | each in visited + {node} ensures Expanded(env, visited + {node}, queue, each) {
      if each in visited {
        assert Expanded(env, visited, pending, each);
        forall i | Edge(env, each, i) ensures Handled(env, visited + {node}, queue, Target(env, each, i)) {
          assert Handled(env, visited, pending, Target(env, each, i));
        }
      } else {
        forall i | Edge(env, each, i) ensures Handled(env, visited + {node}, queue, Target(env, each, i)) {
          assert Target(env, each, i) in pending + more;
        }
      }
    }
  }

  lemma RootIsNeeded(env: Environment)
    ensures Needed(env, {}, [ROOT])
  {
  }

  lemma UnmetIsFatal(env: Environment, visited: set<Node>, pending: seq<Requirement>, r: Requirement)
    requires Needed(env, visited, pending) && r in pending && !Satisfied(env, r)
    ensures !exists t :: Closed(env, t) && Sound(env, t)
  {
  }

  /** Succeeds exactly when the closure can be read and is met, and then reports the versions of exactly the closure. */
  method Resolve(env: Environment) returns (versions: Option<map<string, string>>, ghost visited: set<Node>)
    ensures versions.Some? <==> exists t :: Closed(env, t) && Sound(env, t)
    ensures versions.Some? ==> LeastClosed(env, visited) && Sound(env, visited)
    ensures versions.Some? ==>
      versions.value.Keys == (set node | node in visited :: node.name)
    ensures versions.Some? ==>
      (forall name | name in versions.value :: name in env && versions.value[name] == env[name].version)
  {
    hide Closed, Sound, Needed, Expanded, LeastClosed;
    var pending, found: map<string, string>, seen: set<Node> := [ROOT], map[], {};
    RootIsNeeded(env);
    while pending != []
      invariant Needed(env, seen, pending) && seen <= Universe(env)
      invariant forall node | node in seen :: Expanded(env, seen, pending, node)
      invariant Handled(env, seen, pending, ROOT)
      invariant Recorded(env, seen, found)
      invariant found.Keys == set node | node in seen :: node.name
      decreases Universe(env) - seen, |pending|
    {
      var r := pending[|pending| - 1];
      var rest := pending[..|pending| - 1];
      assert pending == rest + [r];
      var ok := !r.direct;
      if ok && r.name !in found {
        ok := r.name in env && env[r.name].name == r.name && env[r.name].versionOk;
      }
      if !ok || !Accepts(r, env[r.name].version) || !(r.extras <= env[r.name].provided) {
        UnmetIsFatal(env, seen, pending, r);
        return None, seen;
      }
      found := found[r.name := env[r.name].version];
      ok, seen, pending := Visit(env, r, seen, rest);
      if !ok {
        return None, seen;
      }
      assert Node(r.name, "") in Nodes(r);
    }
    FinishedIsLeast(env, seen);
    return Some(found), seen;
  }

  lemma FinishedIsLeast(env: Environment, visited: set<Node>)
    requires Needed(env, visited, []) && Handled(env, visited, [], ROOT)
    requires forall node | node in visited :: Expanded(env, visited, [], node)
    ensures LeastClosed(env, visited) && Sound(env, visited)
  {
    forall node, i | node in visited && Edge(env, node, i)
      ensures Nodes(Target(env, node, i)) <= visited && Satisfied(env, Target(env, node, i))
    {
      assert Handled(env, visited, [], Target(env, node, i));
    }
  }
}
