/** The order in which selected modules are routed: a depth-first walk with a total tie-break. */
module RouteOrder {
  import opened Common
  import opened Ordering
  import opened ModuleGraph

  function Keep(s: seq<string>, selected: set<string>): (r: seq<string>)
    ensures forall x :: x in r <==> x in s && x in selected
  {
    if s == [] then []
    else
      var front := Keep(s[..|s| - 1], selected);
      assert s == s[..|s| - 1] + [s[|s| - 1]];
      if s[|s| - 1] in selected then front + [s[|s| - 1]] else front
  }

  lemma KeepStep(s: seq<string>, k: nat, selected: set<string>)
    requires k < |s|
    ensures Keep(s[..k + 1], selected) == if s[k] in selected then Keep(s[..k], selected) + [s[k]]
                                          else Keep(s[..k], selected)
  {
    assert s[..k + 1][..k] == s[..k];
  }

  lemma KeepNone(s: seq<string>, selected: set<string>)
    ensures Keep(s[..0], selected) == [] && Keep(s[..|s|], selected) == Keep(s, selected)
  {
    assert s[..|s|] == s;
  }

  /** The selected dependencies of each selected module, in the order they are walked. */
  function Walk(graph: Graph, key: string -> Key, selected: set<string>): (walk: Graph)
    ensures forall n, d :: d in Deps(walk, n) <==> n in selected && d in selected && d in Deps(graph, n)
  {
    map n | n in selected :: Keep(Sort(key, Deps(graph, n)), selected)
  }

  /** First occurrences, in order. */
  function FirstOnly(s: seq<string>): (r: seq<string>)
    ensures forall x :: x in r <==> x in s
    ensures Unique(r)
  {
    if s == [] then []
    else
      var front := FirstOnly(s[..|s| - 1]);
      var last := s[|s| - 1];
      assert s == s[..|s| - 1] + [last];
      if last in front then front else front + [last]
  }

  lemma {:induction false} FirstOnlyKnown(a: seq<string>, b: seq<string>)
    requires forall x :: x in b ==> x in a
    ensures FirstOnly(a + b) == FirstOnly(a)
    decreases |b|
  {
    if b == [] {
      assert a + b == a;
    } else {
      assert (a + b)[..|a + b| - 1] == a + b[..|b| - 1];
      FirstOnlyKnown(a, b[..|b| - 1]);
    }
  }

  lemma {:induction false} FirstOnlyTwice(a: seq<string>, b: seq<string>)
    ensures FirstOnly(FirstOnly(a) + b) == FirstOnly(a + b)
    decreases |b|
  {
    if b == [] {
      assert a + b == a && FirstOnly(a) + b == FirstOnly(a);
      DistinctFirstOnly(FirstOnly(a));
    } else {
      assert (a + b)[..|a + b| - 1] == a + b[..|b| - 1];
      assert (FirstOnly(a) + b)[..|FirstOnly(a) + b| - 1] == FirstOnly(a) + b[..|b| - 1];
      FirstOnlyTwice(a, b[..|b| - 1]);
    }
  }

  lemma {:induction false} DistinctFirstOnly(s: seq<string>)
    requires Unique(s)
    ensures FirstOnly(s) == s
  {
    if s != [] {
      var front := s[..|s| - 1];
      DistinctFirstOnly(front);
      assert s == front + [s[|s| - 1]];
      assert s[|s| - 1] !in front;
    }
  }

  // ----- the reference order -----

  /** Every dependency has a smaller rank. */
  ghost predicate Ranked(graph: Graph, rank: map<string, nat>) {
    forall n, d :: d in Deps(graph, n) ==> n in rank && d in rank && rank[d] < rank[n]
  }

  function RankOf(rank: map<string, nat>, n: string): nat { if n in rank then rank[n] else 0 }

  /** The dependency tree of a node written out in full, dependencies first, repeats and all. */
  ghost function Unfold(walk: Graph, rank: map<string, nat>, node: string): seq<string>
    requires Ranked(walk, rank)
    decreases RankOf(rank, node), |Deps(walk, node)| + 1
  {
    UnfoldAll(walk, rank, Deps(walk, node), RankOf(rank, node)) + [node]
  }

  ghost function UnfoldAll(walk: Graph, rank: map<string, nat>, nodes: seq<string>, bound: nat): seq<string>
    requires Ranked(walk, rank) && forall n :: n in nodes ==> RankOf(rank, n) < bound
    decreases bound, |nodes|
  {
    if nodes == [] then []
    else UnfoldAll(walk, rank, nodes[..|nodes| - 1], bound) + Unfold(walk, rank, nodes[|nodes| - 1])
  }

  /** A list that holds the dependencies of all its members holds whole trees. */
  lemma {:induction false} UnfoldInside(walk: Graph, rank: map<string, nat>, order: seq<string>, node: string)
    requires Ranked(walk, rank) && node in order && forall n, d :: n in order && d in Deps(walk, n) ==> d in order
    ensures forall x :: x in Unfold(walk, rank, node) ==> x in order
    decreases RankOf(rank, node), |Deps(walk, node)| + 1
  {
    UnfoldAllInside(walk, rank, order, Deps(walk, node), RankOf(rank, node));
  }

  lemma {:induction false} UnfoldAllInside(walk: Graph, rank: map<string, nat>, order: seq<string>, nodes: seq<string>,
                                           bound: nat)
    requires Ranked(walk, rank) && forall n :: n in nodes ==> RankOf(rank, n) < bound
    requires (forall n :: n in nodes ==> n in order) && forall n, d :: n in order && d in Deps(walk, n) ==> d in order
    ensures forall x :: x in UnfoldAll(walk, rank, nodes, bound) ==> x in order
    decreases bound, |nodes|
  {
    if nodes != [] {
      UnfoldAllInside(walk, rank, order, nodes[..|nodes| - 1], bound);
      UnfoldInside(walk, rank, order, nodes[|nodes| - 1]);
    }
  }

  /** The bound only limits the recursion. */
  lemma {:induction false} UnfoldAllBound(walk: Graph, rank: map<string, nat>, nodes: seq<string>, bound: nat,
                                          other: nat)
    requires Ranked(walk, rank) && forall n :: n in nodes ==> RankOf(rank, n) < bound && RankOf(rank, n) < other
    ensures UnfoldAll(walk, rank, nodes, bound) == UnfoldAll(walk, rank, nodes, other)
    decreases |nodes|
  {
    if nodes != [] { UnfoldAllBound(walk, rank, nodes[..|nodes| - 1], bound, other); }
  }

  ghost function Above(rank: map<string, nat>, nodes: seq<string>): (bound: nat)
    ensures forall n :: n in nodes ==> RankOf(rank, n) < bound
  {
    if nodes == [] then 0
    else
      var front := Above(rank, nodes[..|nodes| - 1]);
      assert nodes == nodes[..|nodes| - 1] + [nodes[|nodes| - 1]];
      if front > RankOf(rank, nodes[|nodes| - 1]) then front else RankOf(rank, nodes[|nodes| - 1]) + 1
  }

  /** The routed order, by definition: all trees of the sorted selection, one after the other, repeats dropped. */
  ghost function ReferenceOrder(walk: Graph, rank: map<string, nat>, roots: seq<string>): seq<string>
    requires Ranked(walk, rank)
  {
    FirstOnly(UnfoldAll(walk, rank, roots, Above(rank, roots)))
  }

  /** The rank only limits the recursion too: any ranks unfold the same trees. */
  lemma {:induction false} UnfoldAnyRank(walk: Graph, rank: map<string, nat>, other: map<string, nat>, node: string)
    requires Ranked(walk, rank) && Ranked(walk, other)
    ensures Unfold(walk, rank, node) == Unfold(walk, other, node)
    decreases RankOf(rank, node), |Deps(walk, node)| + 1
  {
    UnfoldAllAnyRank(walk, rank, other, Deps(walk, node), RankOf(rank, node), RankOf(other, node));
  }

  lemma {:induction false} UnfoldAllAnyRank(walk: Graph, rank: map<string, nat>, other: map<string, nat>,
                                            nodes: seq<string>, bound: nat, limit: nat)
    requires Ranked(walk, rank) && Ranked(walk, other)
    requires forall n :: n in nodes ==> RankOf(rank, n) < bound && RankOf(other, n) < limit
    ensures UnfoldAll(walk, rank, nodes, bound) == UnfoldAll(walk, other, nodes, limit)
    decreases bound, |nodes|
  {
    if nodes != [] {
      UnfoldAllAnyRank(walk, rank, other, nodes[..|nodes| - 1], bound, limit);
      UnfoldAnyRank(walk, rank, other, nodes[|nodes| - 1]);
    }
  }

  /** So the reference order belongs to the graph and the roots alone. */
  lemma ReferenceAnyRank(walk: Graph, rank: map<string, nat>, other: map<string, nat>, roots: seq<string>)
    requires Ranked(walk, rank) && Ranked(walk, other)
    ensures ReferenceOrder(walk, rank, roots) == ReferenceOrder(walk, other, roots)
  {
    UnfoldAllAnyRank(walk, rank, other, roots, Above(rank, roots), Above(other, roots));
  }

  // ----- steps of the walk against the reference -----

  /** `now` is what a list becomes once the trees of some nodes have been added to it. */
  ghost predicate Progress(walk: Graph, rank: map<string, nat>, before: seq<string>, nodes: seq<string>, bound: nat,
                           now: seq<string>) {
    && Ranked(walk, rank)
    && (forall n :: n in nodes ==> RankOf(rank, n) < bound)
    && now == FirstOnly(before + UnfoldAll(walk, rank, nodes, bound))
  }

  lemma ProgressNone(walk: Graph, rank: map<string, nat>, before: seq<string>, bound: nat)
    requires Ranked(walk, rank) && Unique(before)
    ensures Progress(walk, rank, before, [], bound, before)
  {
    assert before + [] == before;
    DistinctFirstOnly(before);
  }

  lemma ProgressMore(walk: Graph, rank: map<string, nat>, before: seq<string>, nodes: seq<string>, bound: nat,
                     now: seq<string>, node: string)
    requires Progress(walk, rank, before, nodes, bound, now) && RankOf(rank, node) < bound
    ensures Progress(walk, rank, before, nodes + [node], bound, FirstOnly(now + Unfold(walk, rank, node)))
  {
    hide FirstOnly, Unfold, UnfoldAll, Ranked;
    var all, tree := UnfoldAll(walk, rank, nodes, bound), Unfold(walk, rank, node);
    UnfoldOneMore(walk, rank, nodes, bound, node);
    assert before + (all + tree) == (before + all) + tree;
    FirstOnlyTwice(before + all, tree);
  }

  lemma UnfoldOneMore(walk: Graph, rank: map<string, nat>, nodes: seq<string>, bound: nat, node: string)
    requires Ranked(walk, rank) && RankOf(rank, node) < bound && forall n :: n in nodes ==> RankOf(rank, n) < bound
    ensures UnfoldAll(walk, rank, nodes + [node], bound) ==
      UnfoldAll(walk, rank, nodes, bound) + Unfold(walk, rank, node)
  {
    hide Unfold, Ranked;
    assert (nodes + [node])[..|nodes + [node]| - 1] == nodes;
  }

  lemma ProgressDone(walk: Graph, rank: map<string, nat>, before: seq<string>, node: string, now: seq<string>)
    requires Progress(walk, rank, before, Deps(walk, node), RankOf(rank, node), now) && node !in now
    ensures now + [node] == FirstOnly(before + Unfold(walk, rank, node))
  {
    var all := before + UnfoldAll(walk, rank, Deps(walk, node), RankOf(rank, node));
    assert before + Unfold(walk, rank, node) == all + [node];
    assert (all + [node])[..|all + [node]| - 1] == all;
  }

  /** A node that is done adds nothing. */
  lemma AlreadyDone(walk: Graph, rank: map<string, nat>, order: seq<string>, node: string)
    requires Ranked(walk, rank) && Unique(order) && DepsFirst(walk, order) && node in order
    ensures FirstOnly(order + Unfold(walk, rank, node)) == order
  {
    forall n, d | n in order && d in Deps(walk, n) ensures d in order {
      var i :| 0 <= i < |order| && order[i] == n;
      assert d in order[..i];
    }
    UnfoldInside(walk, rank, order, node);
    FirstOnlyKnown(order, Unfold(walk, rank, node));
    DistinctFirstOnly(order);
  }

  // ----- the walk -----

  class Sorter {
    const graph: Graph
    const key: string -> Key
    const selected: set<string>
    ghost const walk: Graph
    ghost const rank: map<string, nat>
    var temporary: set<string>
    var permanent: set<string>
    var result: seq<string>
    ghost var path: seq<string>

    /** The path holds the nodes begun, the result the nodes done, each after its dependencies. */
    ghost predicate Valid()
      reads this
    {
      && temporary == Members(path) && Unique(path) && EdgePath(walk, path)
      && permanent == Members(result) && Unique(result) && DepsFirst(walk, result)
      && temporary !! permanent && temporary + permanent <= selected
    }

    ghost predicate Setup() { walk == Walk(graph, key, selected) }

    constructor (graph: Graph, key: string -> Key, selected: set<string>, ghost rank: map<string, nat>)
      ensures Setup() && Valid() && result == [] && path == []
      ensures this.graph == graph && this.key == key && this.selected == selected && this.rank == rank
    {
      this.graph := graph;
      this.key := key;
      this.selected := selected;
      this.walk := Walk(graph, key, selected);
      this.rank := rank;
      temporary := {};
      permanent := {};
      result := [];
      path := [];
    }

    method Begin(node: string)
      requires Valid() && node in selected && node !in temporary && node !in permanent
      requires path != [] ==> node in Deps(walk, path[|path| - 1])
      modifies this`temporary, this`path
      ensures Valid() && path == old(path) + [node] && temporary == old(temporary) + {node}
    {
      temporary := temporary + {node};
      path := path + [node];
    }

    method End(node: string)
      requires Valid() && path != [] && path[|path| - 1] == node
      requires forall d :: d in Deps(walk, node) ==> d in permanent
      modifies this
      ensures Valid() && path == old(path)[..|old(path)| - 1] && temporary == old(temporary) - {node}
      ensures result == old(result) + [node] && permanent == old(permanent) + {node}
    {
      DepsFirstExtended(walk, result, node);
      temporary := temporary - {node};
      permanent := permanent + {node};
      result := result + [node];
      path := path[..|path| - 1];
    }

    /** A begun node met again closes a path of dependencies among the selected modules. */
    lemma Closes(node: string) returns (cycle: seq<string>)
      requires Setup() && Valid() && node in temporary && path != [] && node in Deps(walk, path[|path| - 1])
      ensures ClosedPath(graph, cycle)
    {
      hide Sort, Keep, Unique, DepsFirst;
      var index :| 0 <= index < |path| && path[index] == node;
      cycle := path[index..] + [node];
      forall i | 0 <= i < |cycle| - 1 ensures cycle[i + 1] in Deps(graph, cycle[i]) {
        if i < |cycle| - 2 { assert path[index + i + 1] in Deps(walk, path[index + i]); }
      }
    }

    lemma Listed(node: string)
      requires Valid()
      ensures node in permanent <==> node in result
    {
    }

    lemma Standing()
      requires Valid()
      ensures temporary !! permanent && temporary + permanent <= selected
      ensures permanent == Members(result) && Unique(result) && DepsFirst(walk, result)
    {
    }

    lemma WalkedDeps(node: string)
      requires Setup() && node in selected
      ensures Deps(walk, node) == Keep(Sort(key, Deps(graph, node)), selected)
    {
    }

    /**
     * Refused only on a cycle; otherwise the node's whole tree is added, each module once and after its dependencies.
     */
    method Visit(node: string) returns (ok: bool)
      requires Setup() && Valid() && node in selected
      requires path != [] ==> node in Deps(walk, path[|path| - 1])
      requires path == [] ==> temporary == {}
      modifies this
      ensures !ok ==> exists cycle :: ClosedPath(graph, cycle)
      ensures ok ==>
        Valid() && path == old(path) && temporary == old(temporary) && node in permanent && old(permanent) <= permanent
      ensures ok && Ranked(walk, rank) ==> result == FirstOnly(old(result) + Unfold(walk, rank, node))
      decreases selected - temporary - permanent, 0
    {
      hide EdgePath, DepsFirst, ClosedPath, FirstOnly, UnfoldAll, Unfold, Ranked, Progress, Walk, Unique, Sort, Members,
           Valid, Keep, Deps, Setup;
      Standing();
      if node in permanent {
        assert node in result by { Listed(node); }
        if Ranked(walk, rank) { AlreadyDone(walk, rank, result, node); }
        return true;
      }
      if node in temporary {
        ghost var cycle := Closes(node);
        return false;
      }
      ghost var open := selected - temporary - permanent;
      assert node in open;
      Begin(node);
      var deps := Sort(key, Deps(graph, node));
      WalkedDeps(node);
      KeepNone(deps, selected);
      if Ranked(walk, rank) { ProgressNone(walk, rank, result, RankOf(rank, node)); }
      for k := 0 to |deps|
        invariant Valid() && path == old(path) + [node] && temporary == old(temporary) + {node}
        invariant old(permanent) <= permanent
        invariant forall d :: d in Keep(deps[..k], selected) ==> d in permanent
        invariant Ranked(walk, rank) ==>
          Progress(walk, rank, old(result), Keep(deps[..k], selected), RankOf(rank, node), result)
      {
        assert selected - temporary - permanent <= open - {node};
        KeepStep(deps, k, selected);
        if deps[k] in selected {
          ok := VisitDependency(node, deps[k], old(result), Keep(deps[..k], selected));
          if !ok { return; }
        }
      }
      Finish(node, old(result));
      assert (old(path) + [node])[..|old(path)|] == old(path);
      return true;
    }

    /**
     * One dependency of the node on top of the path; `done` are the ones before it, `start` the result when the node
     * was begun.
     */
    method VisitDependency(ghost node: string, dependency: string, ghost start: seq<string>, ghost done: seq<string>)
      returns (ok: bool)
      requires Setup() && Valid() && path != [] && path[|path| - 1] == node
      requires dependency in selected && dependency in Deps(walk, node)
      requires Ranked(walk, rank) ==> Progress(walk, rank, start, done, RankOf(rank, node), result)
      modifies this
      ensures !ok ==> exists cycle :: ClosedPath(graph, cycle)
      ensures ok ==>
        Valid() && path == old(path) && temporary == old(temporary) && dependency in permanent
        && old(permanent) <= permanent
      ensures ok && Ranked(walk, rank) ==> Progress(walk, rank, start, done + [dependency], RankOf(rank, node), result)
      decreases selected - temporary - permanent, 1
    {
      hide EdgePath, DepsFirst, ClosedPath, FirstOnly, UnfoldAll, Unfold, Ranked, Progress, Walk, Unique, Sort, Members,
           Valid;
      ghost var before := result;
      ok := Visit(dependency);
      if ok && Ranked(walk, rank) {
        Smaller(walk, rank, node, dependency);
        ProgressMore(walk, rank, start, done, RankOf(rank, node), before, dependency);
      }
    }

    /** One module of the sorted selection; `done` are the ones before it. */
    method VisitRoot(root: string, ghost done: seq<string>, ghost bound: nat) returns (ok: bool)
      requires Setup() && Valid() && path == [] && root in selected
      requires Ranked(walk, rank) ==> RankOf(rank, root) < bound && Progress(walk, rank, [], done, bound, result)
      modifies this
      ensures !ok ==> exists cycle :: ClosedPath(graph, cycle)
      ensures ok ==> Valid() && path == [] && root in permanent && old(permanent) <= permanent
      ensures ok && Ranked(walk, rank) ==> Progress(walk, rank, [], done + [root], bound, result)
    {
      hide EdgePath, DepsFirst, ClosedPath, FirstOnly, UnfoldAll, Unfold, Ranked, Progress, Walk, Unique, Sort, Members,
           Valid;
      assert temporary == {} by { NothingBegun(); }
      ghost var before := result;
      ok := Visit(root);
      if ok && Ranked(walk, rank) { ProgressMore(walk, rank, [], done, bound, before, root); }
    }

    lemma NothingBegun()
      requires Valid() && path == []
      ensures temporary == {}
    {
    }

    method Finish(node: string, ghost start: seq<string>)
      requires Valid() && path != [] && path[|path| - 1] == node
      requires forall d :: d in Deps(walk, node) ==> d in permanent
      requires Ranked(walk, rank) ==> Progress(walk, rank, start, Deps(walk, node), RankOf(rank, node), result)
      modifies this
      ensures Valid() && path == old(path)[..|old(path)| - 1] && temporary == old(temporary) - {node}
      ensures permanent == old(permanent) + {node}
      ensures Ranked(walk, rank) ==> result == FirstOnly(start + Unfold(walk, rank, node))
    {
      hide EdgePath, DepsFirst, FirstOnly, UnfoldAll, Unfold, Ranked, Progress;
      assert node in temporary && node !in permanent;
      if Ranked(walk, rank) { ProgressDone(walk, rank, start, node, result); }
      End(node);
    }
  }

  lemma Smaller(walk: Graph, rank: map<string, nat>, node: string, d: string)
    requires Ranked(walk, rank) && d in Deps(walk, node)
    ensures RankOf(rank, d) < RankOf(rank, node)
  {
  }

  /** `rank` read off an order that puts dependencies first. */
  ghost function Positions(order: seq<string>): (rank: map<string, nat>)
    requires Unique(order)
    ensures forall i :: 0 <= i < |order| ==> order[i] in rank && rank[order[i]] == i
  {
    map n | n in order :: PositionIn(order, n)
  }

  ghost function PositionIn(order: seq<string>, n: string): (i: nat)
    requires n in order
    ensures i < |order| && order[i] == n
  {
    var i :| 0 <= i < |order| && order[i] == n; i
  }

  lemma PositionsRanked(graph: Graph, key: string -> Key, selected: set<string>, order: seq<string>)
    requires DepsFirst(graph, order) && Unique(order) && forall n :: n in graph ==> n in order
    ensures Ranked(Walk(graph, key, selected), Positions(order))
  {
    hide Sort, Keep;
    var rank := Positions(order);
    forall n, d | d in Deps(Walk(graph, key, selected), n) ensures n in rank && d in rank && rank[d] < rank[n] {
      OrderedRank(graph, order, n, d);
    }
  }

  lemma OrderedRank(graph: Graph, order: seq<string>, n: string, d: string)
    requires DepsFirst(graph, order) && Unique(order) && n in order && d in Deps(graph, n)
    ensures d in order && Positions(order)[d] < Positions(order)[n]
  {
    var i :| 0 <= i < |order| && order[i] == n;
    var j :| 0 <= j < i && order[..i][j] == d;
    assert order[j] == d;
  }

  /**
   * The routed order: a duplicate-free listing of the selection with every dependency before its dependents. It fails
   * only when the dependencies have a cycle; when they are ranked it is the reference order, whatever the set's layout.
   */
  method TopologicalOrder(graph: Graph, key: string -> Key, selected: set<string>, listing: seq<string>,
                          ghost rank: map<string, nat>)
    returns (r: Result<seq<string>, ()>)
    requires Keyed(key) && Members(listing) == selected && Unique(listing)
    ensures r.Err? ==> exists cycle :: ClosedPath(graph, cycle)
    ensures r.Ok? ==> Unique(r.value) && Members(r.value) == selected && DepsFirst(Walk(graph, key, selected), r.value)
    ensures r.Ok? && Ranked(Walk(graph, key, selected), rank) ==>
              r.value == ReferenceOrder(Walk(graph, key, selected), rank, Sort(key, listing))
  {
    hide EdgePath, DepsFirst, ClosedPath, FirstOnly, UnfoldAll, Unfold, Ranked, Progress, Unique, Keyed, Sort,
         Sorter.Valid, Above, Members;
    var sorter := new Sorter(graph, key, selected, rank);
    var roots := Sort(key, listing);
    forall x | x in roots ensures x in selected { InMembers(listing, x); }
    ghost var bound := Above(rank, roots);
    if Ranked(sorter.walk, rank) { ProgressNone(sorter.walk, rank, [], bound); }
    for k := 0 to |roots|
      invariant fresh(sorter) && sorter.Setup() && sorter.Valid() && sorter.path == []
      invariant sorter.graph == graph && sorter.key == key && sorter.selected == selected && sorter.rank == rank
      invariant forall i :: 0 <= i < k ==> roots[i] in sorter.permanent
      invariant Ranked(sorter.walk, rank) ==> Progress(sorter.walk, rank, [], roots[..k], bound, sorter.result)
    {
      assert roots[..k] + [roots[k]] == roots[..k + 1];
      var ok := sorter.VisitRoot(roots[k], roots[..k], bound);
      if !ok { return Err(()); }
    }
    assert roots[..|roots|] == roots;
    if Ranked(sorter.walk, rank) { ProgressIsReference(sorter.walk, rank, roots, sorter.result); }
    sorter.Standing();
    EveryRoot(key, listing, sorter.permanent);
    return Ok(sorter.result);
  }

  lemma InMembers(s: seq<string>, x: string)
    requires x in s
    ensures x in Members(s)
  {
  }

  lemma EveryRoot(key: string -> Key, listing: seq<string>, permanent: set<string>)
    requires forall i :: 0 <= i < |Sort(key, listing)| ==> Sort(key, listing)[i] in permanent
    ensures Members(listing) <= permanent
  {
    forall x | x in Members(listing) ensures x in permanent {
      assert x in Sort(key, listing);
    }
  }

  lemma ProgressIsReference(walk: Graph, rank: map<string, nat>, roots: seq<string>, now: seq<string>)
    requires Progress(walk, rank, [], roots, Above(rank, roots), now)
    ensures now == ReferenceOrder(walk, rank, roots)
  {
    assert [] + UnfoldAll(walk, rank, roots, Above(rank, roots)) == UnfoldAll(walk, rank, roots, Above(rank, roots));
  }

  /** Two listings of the same selection are sorted alike, so the reference order depends on the selection alone. */
  lemma ListingForgotten(key: string -> Key, a: seq<string>, b: seq<string>)
    requires Keyed(key) && Unique(a) && Unique(b) && Members(a) == Members(b)
    ensures Sort(key, a) == Sort(key, b)
  {
    forall x ensures multiset(a)[x] == multiset(b)[x] {
      CountDistinct(a, x);
      CountDistinct(b, x);
      assert x in a <==> x in Members(a);
      assert x in b <==> x in Members(b);
    }
    assert multiset(a) == multiset(b);
    SortSorts(key, a);
    SortSorts(key, b);
    SortedUnique(key, Sort(key, a), Sort(key, b));
  }

  lemma {:induction false} CountDistinct(s: seq<string>, x: string)
    requires Unique(s)
    ensures multiset(s)[x] == if x in s then 1 else 0
  {
    if s != [] {
      var front := s[..|s| - 1];
      assert s == front + [s[|s| - 1]];
      CountDistinct(front, x);
      assert s[|s| - 1] !in front;
    }
  }
}
