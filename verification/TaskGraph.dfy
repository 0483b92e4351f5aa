/**
 The dependency check of `scripts/validate-program-state.py`: the shape of the graph, then a recursive
 depth-first visit with a set of nodes being visited and a set of finished ones.
 */
module TaskGraph {
  import opened Prelude

  datatype Node = Node(id: string, status: string, dependsOn: seq<string>)

  datatype GraphError =
    | UnsupportedSchema
    | NoNodes
    | InvalidId
    | DuplicateId
    | NodeTaskMismatch
    | InvalidStatus
    | UnknownDependency
    | SelfDependency
    | DependencyCycle(path: seq<string>)

  type Graph = map<string, seq<string>>

  const TASK_STATES := {"pending", "spec_ready", "approved", "in_progress", "review", "done", "blocked", "superseded"}

  // ---------------------------------------------------------------- cycles

  ghost predicate IsWalk(graph: Graph, p: seq<string>) {
    forall i | 0 <= i < |p| - 1 :: p[i] in graph && p[i + 1] in graph[p[i]]
  }

  ghost predicate IsCycle(graph: Graph, p: seq<string>) {
    |p| >= 2 && p[0] == p[|p| - 1] && IsWalk(graph, p)
  }

  ghost predicate Acyclic(graph: Graph) {
    forall p: seq<string> :: !IsCycle(graph, p)
  }

  ghost predicate Distinct(s: seq<string>) {
    forall i, j | 0 <= i < j < |s| :: s[i] != s[j]
  }

  /** Every node comes after all of its dependencies. */
  ghost predicate IsTopological(graph: Graph, order: seq<string>) {
    && Distinct(order)
    && forall i | 0 <= i < |order| :: order[i] in graph && forall d | d in graph[order[i]] :: d in order[..i]
  }

  lemma {:induction false} WalkSuffix(graph: Graph, p: seq<string>, k: nat)
    requires IsWalk(graph, p) && k <= |p|
    ensures IsWalk(graph, p[k..])
  {
    var tail := p[k..];
    forall i | 0 <= i < |tail| - 1 ensures tail[i] in graph && tail[i + 1] in graph[tail[i]] {
      assert p[k + i] in graph && p[k + i + 1] in graph[p[k + i]];
    }
  }

  /** Walking along dependencies goes strictly down in a topological order. */
  lemma {:induction false} WalkDescends(graph: Graph, order: seq<string>, p: seq<string>, i: nat)
    requires IsTopological(graph, order) && IsWalk(graph, p) && |p| >= 2
    requires i < |order| && order[i] == p[0]
    ensures exists j | 0 <= j < i :: order[j] == p[|p| - 1]
    decreases |p|
  {
    assert p[1] in graph[p[0]];
    var k :| 0 <= k < i && order[k] == p[1];
    if |p| > 2 {
      WalkSuffix(graph, p, 1);
      WalkDescends(graph, order, p[1..], k);
    }
  }

  lemma {:induction false} TopologicalIsAcyclic(graph: Graph, order: seq<string>)
    requires IsTopological(graph, order) && forall n | n in graph :: n in order
    ensures Acyclic(graph)
  {
    forall p: seq<string> ensures !IsCycle(graph, p) {
      if IsCycle(graph, p) {
        assert p[0] in graph;
        var i :| 0 <= i < |order| && order[i] == p[0];
        WalkDescends(graph, order, p, i);
        assert false;
      }
    }
  }

  // ---------------------------------------------------------------- the visit

  ghost predicate Closed(graph: Graph) {
    forall n | n in graph :: forall d | d in graph[n] :: d in graph
  }

  /** The finished nodes in finishing order, and the path of open ones. */
  ghost predicate Consistent(graph: Graph, visiting: set<string>, visited: set<string>, order: seq<string>,
                             path: seq<string>)
  {
    && IsTopological(graph, order)
    && (forall n :: n in visited <==> n in order)
    && visiting !! visited && visiting <= graph.Keys
    && (forall n :: n in visiting <==> n in path)
  }

  lemma {:induction false} OpenKeeps(graph: Graph, visiting: set<string>, visited: set<string>,
                                     order: seq<string>, path: seq<string>, node: string)
    requires Consistent(graph, visiting, visited, order, path)
    requires node in graph && node !in visiting && node !in visited
    ensures Consistent(graph, visiting + {node}, visited, order, path + [node])
    ensures |graph.Keys - (visiting + {node})| < |graph.Keys - visiting|
  {
    assert graph.Keys - visiting == (graph.Keys - (visiting + {node})) + {node};
  }

  lemma {:induction false} FinishKeeps(graph: Graph, visiting: set<string>, visited: set<string>,
                                       order: seq<string>, path: seq<string>, node: string)
    requires Consistent(graph, visiting + {node}, visited, order, path + [node])
    requires node in graph && node !in visiting && forall n :: n in visiting <==> n in path
    requires forall d | d in graph[node] :: d in visited
    ensures Consistent(graph, visiting, visited + {node}, order + [node], path)
  {
    var longer := order + [node];
    assert node !in order;
    forall i | 0 <= i < |longer| ensures longer[i] in graph && forall d | d in graph[longer[i]] :: d in longer[..i] {
      if i < |order| {
        assert longer[..i] == order[..i] && longer[i] == order[i];
      } else {
        assert longer[..i] == order;
      }
    }
  }

  class Traversal {
    const graph: Graph
    var visiting: set<string>
    var visited: set<string>
    ghost var order: seq<string>

    constructor (graph: Graph)
      ensures this.graph == graph && visiting == {} && order == []
      ensures Consistent(graph, visiting, visited, order, [])
    {
      this.graph := graph;
      visiting, visited, order := {}, {}, [];
    }

    method Visit(node: string, path: seq<string>) returns (r: Result<(), seq<string>>)
      requires Closed(graph) && Consistent(graph, visiting, visited, order, path)
      requires node in graph && IsWalk(graph, path + [node])
      modifies this
      ensures r.Ok? ==>
                && Consistent(graph, visiting, visited, order, path) && visiting == old(visiting)
                && old(visited) <= visited && node in visited
      ensures r.Err? ==> exists k | 0 <= k < |r.error| :: IsCycle(graph, r.error[k..])
      decreases |graph.Keys - visiting|
    {
      hide Consistent, IsCycle, IsWalk;
      if node in visiting {
        assert node in path by {
          PathIsOpen(graph, visiting, visited, order, path);
        }
        ReturnToOpenNode(graph, path, node);
        return Err(path + [node]);
      }
      if node in visited {
        return Ok(());
      }
      ghost var open := visiting;
      PathIsOpen(graph, visiting, visited, order, path);
      OpenKeeps(graph, visiting, visited, order, path, node);
      visiting := visiting + {node};
      var longer := path + [node];
      var dependencies := graph[node];
      for i := 0 to |dependencies|
        invariant Consistent(graph, visiting, visited, order, longer) && visiting == open + {node}
        invariant old(visited) <= visited
        invariant forall j | 0 <= j < i :: dependencies[j] in visited
      {
        assert dependencies[i] in graph[node];
        WalkExtends(graph, longer, dependencies[i]);
        r := Visit(dependencies[i], longer);
        if r.Err? {
          return;
        }
      }
      FinishKeeps(graph, open, visited, order, path, node);
      visiting := visiting - {node};
      visited := visited + {node};
      order := order + [node];
      assert visiting == open;
      return Ok(());
    }

    /** Visit every node; the driver's sorting only chooses which cycle is reported. */
    method VisitAll() returns (r: Result<(), seq<string>>)
      requires Closed(graph) && Consistent(graph, visiting, visited, order, []) && visiting == {}
      modifies this
      ensures r.Ok? <==> Acyclic(graph)
      ensures r.Ok? ==> IsTopological(graph, order) && forall n | n in graph :: n in order
      ensures r.Err? ==> exists k | 0 <= k < |r.error| :: IsCycle(graph, r.error[k..])
    {
      var remaining := graph.Keys;
      while remaining != {}
        invariant Consistent(graph, visiting, visited, order, []) && visiting == {}
        invariant remaining <= graph.Keys
        invariant forall n | n in graph && n !in remaining :: n in visited
      {
        var node :| node in remaining;
        r := Visit(node, []);
        if r.Err? {
          return;
        }
        remaining := remaining - {node};
      }
      TopologicalIsAcyclic(graph, order);
      return Ok(());
    }
  }

  lemma {:induction false} PathIsOpen(graph: Graph, visiting: set<string>, visited: set<string>,
                                      order: seq<string>, path: seq<string>)
    requires Consistent(graph, visiting, visited, order, path)
    ensures forall n :: n in visiting <==> n in path
  {
  }

  /** Reaching an open node again closes a cycle: the path from its first visit back to it. */
  lemma {:induction false} ReturnToOpenNode(graph: Graph, path: seq<string>, node: string)
    requires node in path && IsWalk(graph, path + [node])
    ensures exists k | 0 <= k < |path + [node]| :: IsCycle(graph, (path + [node])[k..])
  {
    var k :| 0 <= k < |path| && path[k] == node;
    var full := path + [node];
    var suffix := full[k..];
    assert suffix[0] == node && suffix[|suffix| - 1] == node;
    WalkSuffix(graph, full, k);
    assert IsCycle(graph, full[k..]);
  }

  lemma {:induction false} WalkExtends(graph: Graph, path: seq<string>, next: string)
    requires IsWalk(graph, path) && path != []
    requires path[|path| - 1] in graph && next in graph[path[|path| - 1]]
    ensures IsWalk(graph, path + [next])
  {
    var full := path + [next];
    forall i | 0 <= i < |full| - 1 ensures full[i] in graph && full[i + 1] in graph[full[i]] {
      if i < |path| - 1 {
        assert full[i] == path[i] && full[i + 1] == path[i + 1];
      }
    }
  }

  // ---------------------------------------------------------------- the whole check

  function IdsOf(nodes: seq<Node>): set<string> {
    set i | 0 <= i < |nodes| :: nodes[i].id
  }

  ghost predicate DistinctIds(isSpace: char -> bool, nodes: seq<Node>) {
    && (forall i | 0 <= i < |nodes| :: Strip(isSpace, nodes[i].id) != "")
    && (forall i, j | 0 <= i < j < |nodes| :: nodes[i].id != nodes[j].id)
  }

  ghost predicate NodeAccepted(node: Node, ids: set<string>) {
    && node.status in TASK_STATES
    && (forall d | d in node.dependsOn :: d in ids)
    && node.id !in node.dependsOn
  }

  /** The dependencies of each node; ids are distinct where this is used. */
  function DependenciesOf(nodes: seq<Node>): Graph {
    if nodes == [] then map[]
    else DependenciesOf(nodes[..|nodes| - 1])[nodes[|nodes| - 1].id := nodes[|nodes| - 1].dependsOn]
  }

  ghost predicate WellFormed(isSpace: char -> bool, schemaVersion: string, nodes: seq<Node>, taskIds: set<string>) {
    && schemaVersion == "program-task-graph.v1"
    && nodes != []
    && DistinctIds(isSpace, nodes)
    && IdsOf(nodes) == taskIds
    && forall i | 0 <= i < |nodes| :: NodeAccepted(nodes[i], IdsOf(nodes))
  }

  method UniqueIds(isSpace: char -> bool, nodes: seq<Node>) returns (r: Result<set<string>, GraphError>)
    ensures r.Ok? <==> DistinctIds(isSpace, nodes)
    ensures r.Ok? ==> r.value == IdsOf(nodes)
    ensures r.Err? ==> r.error == InvalidId || r.error == DuplicateId
  {
    var identifiers: set<string> := {};
    for i := 0 to |nodes|
      invariant identifiers == IdsOf(nodes[..i])
      invariant forall j | 0 <= j < i :: Strip(isSpace, nodes[j].id) != ""
      invariant forall j, k | 0 <= j < k < i :: nodes[j].id != nodes[k].id
    {
      if Strip(isSpace, nodes[i].id) == "" {
        return Err(InvalidId);
      }
      if nodes[i].id in identifiers {
        return Err(DuplicateId);
      }
      identifiers := identifiers + {nodes[i].id};
      assert nodes[..i + 1] == nodes[..i] + [nodes[i]];
      IdsSnoc(nodes[..i], nodes[i]);
    }
    assert nodes[..|nodes|] == nodes;
    return Ok(identifiers);
  }

  lemma {:induction false} IdsSnoc(nodes: seq<Node>, node: Node)
    ensures IdsOf(nodes + [node]) == IdsOf(nodes) + {node.id}
  {
    var all := nodes + [node];
    assert all[|nodes|] == node;
    forall id | id in IdsOf(nodes) ensures id in IdsOf(all) {
      var i :| 0 <= i < |nodes| && nodes[i].id == id;
      assert all[i] == nodes[i];
    }
  }

  lemma {:induction false} DependencyKeys(nodes: seq<Node>)
    ensures DependenciesOf(nodes).Keys == IdsOf(nodes)
    ensures forall n | n in DependenciesOf(nodes) ::
              exists i | 0 <= i < |nodes| :: nodes[i].id == n && DependenciesOf(nodes)[n] == nodes[i].dependsOn
    decreases |nodes|
  {
    if nodes != [] {
      var k := |nodes| - 1;
      DependencyKeys(nodes[..k]);
      assert nodes == nodes[..k] + [nodes[k]];
      IdsSnoc(nodes[..k], nodes[k]);
      forall n | n in DependenciesOf(nodes)
        ensures exists i | 0 <= i < |nodes| :: nodes[i].id == n && DependenciesOf(nodes)[n] == nodes[i].dependsOn
      {
        if n != nodes[k].id {
          var i :| 0 <= i < k && nodes[..k][i].id == n && DependenciesOf(nodes[..k])[n] == nodes[..k][i].dependsOn;
          assert nodes[i] == nodes[..k][i];
        }
      }
    }
  }

  /**
   Accepts exactly the well-formed acyclic graphs. On acceptance the finishing order is topological; on a
   cycle error a suffix of the reported path is a cycle.
   */
  method ValidateTaskGraph(isSpace: char -> bool, schemaVersion: string, nodes: seq<Node>, taskIds: set<string>)
    returns (r: Result<(), GraphError>, ghost order: seq<string>)
    ensures r.Ok? <==> WellFormed(isSpace, schemaVersion, nodes, taskIds) && Acyclic(DependenciesOf(nodes))
    ensures r.Ok? ==> IsTopological(DependenciesOf(nodes), order) && forall n | n in taskIds :: n in order
    ensures r.Err? && r.error.DependencyCycle? ==>
              exists k | 0 <= k < |r.error.path| :: IsCycle(DependenciesOf(nodes), r.error.path[k..])
  {
    order := [];
    if schemaVersion != "program-task-graph.v1" {
      r := Err(UnsupportedSchema);
      return;
    }
    if nodes == [] {
      r := Err(NoNodes);
      return;
    }
    var unique := UniqueIds(isSpace, nodes);
    if unique.Err? {
      r := Err(unique.error);
      return;
    }
    if unique.value != taskIds {
      r := Err(NodeTaskMismatch);
      return;
    }
    var dependencies: Graph := map[];
    for i := 0 to |nodes|
      invariant dependencies == DependenciesOf(nodes[..i])
      invariant forall j | 0 <= j < i :: NodeAccepted(nodes[j], IdsOf(nodes))
    {
      if nodes[i].status !in TASK_STATES {
        r := Err(InvalidStatus);
        return;
      }
      if d :| d in nodes[i].dependsOn && d !in unique.value {
        r := Err(UnknownDependency);
        return;
      }
      if nodes[i].id in nodes[i].dependsOn {
        r := Err(SelfDependency);
        return;
      }
      dependencies := dependencies[nodes[i].id := nodes[i].dependsOn];
      assert nodes[..i + 1][..i] == nodes[..i] && nodes[..i + 1][i] == nodes[i];
    }
    assert nodes[..|nodes|] == nodes;
    DependencyKeys(nodes);
    var traversal := new Traversal(dependencies);
    var visit := traversal.VisitAll();
    if visit.Err? {
      r := Err(DependencyCycle(visit.error));
      return;
    }
    order := traversal.order;
    r := Ok(());
  }
}
