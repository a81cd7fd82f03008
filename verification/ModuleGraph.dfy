/** Depth-first search over module dependencies: cycle detection and dependency order. */
module ModuleGraph {
  import opened Common

  type Graph = map<string, seq<string>>

  function Deps(graph: Graph, node: string): seq<string> {
    if node in graph then graph[node] else []
  }

  /** A path along dependency edges that ends where it starts. */
  ghost predicate ClosedPath(graph: Graph, path: seq<string>) {
    |path| >= 2 && path[0] == path[|path| - 1] && EdgePath(graph, path)
  }

  ghost predicate EdgePath(graph: Graph, path: seq<string>) {
    forall i :: 0 <= i < |path| - 1 ==> path[i + 1] in Deps(graph, path[i])
  }

  ghost predicate Acyclic(graph: Graph) {
    forall path :: !ClosedPath(graph, path)
  }

  /** Every dependency of an element stands before it. */
  ghost predicate DepsFirst(graph: Graph, order: seq<string>) {
    forall i, d :: 0 <= i < |order| && d in Deps(graph, order[i]) ==> d in order[..i]
  }

  lemma DepsFirstExtended(graph: Graph, order: seq<string>, node: string)
    requires DepsFirst(graph, order) && forall d :: d in Deps(graph, node) ==> d in order
    ensures DepsFirst(graph, order + [node])
  {
    var longer := order + [node];
    forall i, d | 0 <= i < |longer| && d in Deps(graph, longer[i]) ensures d in longer[..i] {
      if i < |order| { assert longer[..i] == order[..i]; } else { assert longer[..i] == order; }
    }
  }

  /** A distinct order that puts dependencies first and holds every node leaves no room for a cycle. */
  lemma OrderedAcyclic(graph: Graph, order: seq<string>)
    requires DepsFirst(graph, order) && Unique(order) && forall n :: n in graph ==> n in order
    ensures Acyclic(graph)
  {
    forall path ensures !ClosedPath(graph, path) {
      if ClosedPath(graph, path) {
        assert path[1] in Deps(graph, path[0]);
        var i :| 0 <= i < |order| && order[i] == path[0];
        var j := Descends(graph, order, path, i, |path| - 1);
      }
    }
  }

  /** Along a path, positions in the order only fall. */
  lemma {:induction false} Descends(graph: Graph, order: seq<string>, path: seq<string>, i: nat, n: nat)
    returns (j: nat)
    requires DepsFirst(graph, order) && EdgePath(graph, path)
    requires n < |path| && i < |order| && order[i] == path[0]
    ensures j < |order| && order[j] == path[n] && j + n <= i
    decreases n
  {
    if n == 0 {
      j := i;
    } else {
      var k := Descends(graph, order, path, i, n - 1);
      assert path[n] in Deps(graph, order[k]);
      j :| 0 <= j < k && order[..k][j] == path[n];
    }
  }

  class CycleFinder {
    const graph: Graph
    ghost const universe: set<string>
    var visiting: set<string>
    var visited: set<string>
    var stack: seq<string>
    ghost var finished: seq<string>

    /** The stack is a path of the nodes being visited; what is visited was finished after all its dependencies. */
    ghost predicate Valid()
      reads this
    {
      && (forall n, d :: n in universe && d in Deps(graph, n) ==> d in universe)
      && visiting == Members(stack) && Unique(stack) && EdgePath(graph, stack)
      && visited == Members(finished) && Unique(finished) && DepsFirst(graph, finished)
      && visiting !! visited && visiting + visited <= universe
    }

    constructor (graph: Graph)
      ensures Valid() && this.graph == graph && stack == [] && finished == []
      ensures forall n :: n in graph ==> n in universe
    {
      this.graph := graph;
      universe := graph.Keys + set n, d | n in graph && d in graph[n] :: d;
      visiting := {};
      visited := {};
      stack := [];
      finished := [];
    }

    method Enter(node: string)
      requires Valid() && node in universe && node !in visiting && node !in visited
      requires stack != [] ==> node in Deps(graph, stack[|stack| - 1])
      modifies this`visiting, this`stack
      ensures Valid() && stack == old(stack) + [node] && visiting == old(visiting) + {node}
    {
      visiting := visiting + {node};
      stack := stack + [node];
    }

    method Leave(node: string)
      requires Valid() && stack != [] && stack[|stack| - 1] == node
      requires forall d :: d in Deps(graph, node) ==> d in visited
      modifies this
      ensures Valid() && stack == old(stack)[..|old(stack)| - 1]
      ensures visiting == old(visiting) - {node} && visited == old(visited) + {node}
    {
      DepsFirstExtended(graph, finished, node);
      stack := stack[..|stack| - 1];
      visiting := visiting - {node};
      visited := visited + {node};
      finished := finished + [node];
    }

    /** The node is on the stack: the stretch from it to the top closes a path. */
    method Close(node: string) returns (cycle: seq<string>)
      requires Valid() && node in visiting && node in Deps(graph, stack[|stack| - 1])
      ensures ClosedPath(graph, cycle)
    {
      var index :| 0 <= index < |stack| && stack[index] == node;
      cycle := stack[index..] + [node];
      forall i | 0 <= i < |cycle| - 1 ensures cycle[i + 1] in Deps(graph, cycle[i]) {
        if i < |cycle| - 2 { assert stack[index + i + 1] in Deps(graph, stack[index + i]); }
      }
    }

    method Visit(node: string) returns (cycle: Option<seq<string>>)
      requires Valid() && node in universe
      requires stack != [] ==> node in Deps(graph, stack[|stack| - 1])
      modifies this
      ensures cycle.Some? ==> ClosedPath(graph, cycle.value)
      ensures cycle.None? ==>
        Valid() && stack == old(stack) && visiting == old(visiting) && node in visited && old(visited) <= visited
      decreases universe - visiting - visited
    {
      hide ClosedPath, EdgePath, DepsFirst, Unique;
      if node in visiting {
        var path := Close(node);
        return Some(path);
      }
      if node in visited { return None; }
      ghost var unseen := universe - visiting - visited;
      assert node in unseen;
      Enter(node);
      var deps := Deps(graph, node);
      for k := 0 to |deps|
        invariant Valid() && stack == old(stack) + [node]
        invariant old(visited) <= visited && visiting == old(visiting) + {node}
        invariant forall i :: 0 <= i < k ==> deps[i] in visited
      {
        assert universe - visiting - visited <= unseen - {node};
        cycle := Visit(deps[k]);
        if cycle.Some? { return; }
      }
      Leave(node);
      assert (old(stack) + [node])[..|old(stack)|] == old(stack);
      return None;
    }
  }

  /**
   * Sound and complete: a reported cycle is a closed path of the graph, and none is reported exactly when there is
   * none.
   */
  method FindCycle(graph: Graph, nodes: seq<string>) returns (cycle: Option<seq<string>>, ghost order: seq<string>)
    requires forall n :: n in nodes <==> n in graph
    ensures cycle.Some? ==> ClosedPath(graph, cycle.value)
    ensures cycle.None? <==> Acyclic(graph)
    ensures cycle.None? ==> DepsFirst(graph, order) && Unique(order) && forall n :: n in graph ==> n in order
  {
    var finder := new CycleFinder(graph);
    for k := 0 to |nodes|
      invariant fresh(finder) && finder.Valid() && finder.graph == graph && finder.stack == []
      invariant forall n :: n in graph ==> n in finder.universe
      invariant forall i :: 0 <= i < k ==> nodes[i] in finder.visited
    {
      cycle := finder.Visit(nodes[k]);
      if cycle.Some? {
        order := [];
        return;
      }
    }
    order := finder.finished;
    OrderedAcyclic(graph, order);
    return None, order;
  }
}
