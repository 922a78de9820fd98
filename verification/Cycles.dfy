/**
 The two cycle detectors: a recursive depth-first search over organizational
 boundaries and an iterative walk over the auditor's parent map. Both report a
 cycle exactly when the graph has one.
 */
module Cycles {

  type Graph = set<(string, string)>

  ghost predicate IsPath(g: Graph, p: seq<string>) {
    |p| >= 1 && forall i :: 0 <= i < |p| - 1 ==> (p[i], p[i + 1]) in g
  }

  /** Some path of at least one edge returns to where it began. */
  ghost predicate Cyclic(g: Graph) {
    exists p :: IsPath(g, p) && |p| >= 2 && p[0] == p[|p| - 1]
  }

  /** Every edge out of a ranked node leads lower, or out of the ranked nodes. */
  ghost predicate Descending(g: Graph, rank: map<string, nat>) {
    forall e :: e in g && e.0 in rank && e.1 in rank ==> rank[e.1] < rank[e.0]
  }

  lemma {:induction false} RanksFallAlongPath(g: Graph, rank: map<string, nat>, p: seq<string>, i: nat)
    requires IsPath(g, p) && Descending(g, rank) && i < |p|
    requires forall x :: x in p ==> x in rank
    ensures rank[p[i]] + i <= rank[p[0]]
  {
    if i > 0 {
      RanksFallAlongPath(g, rank, p, i - 1);
      assert (p[i - 1], p[i]) in g && p[i - 1] in p && p[i] in p;
    }
  }

  /** A ranking of all sources rules out every cycle. */
  lemma RankExcludesCycle(g: Graph, rank: map<string, nat>)
    requires Descending(g, rank) && forall e :: e in g ==> e.0 in rank
    ensures !Cyclic(g)
  {
    if p :| IsPath(g, p) && |p| >= 2 && p[0] == p[|p| - 1] {
      forall x | x in p ensures x in rank {
        var i :| 0 <= i < |p| && p[i] == x;
        var j := if i == |p| - 1 then 0 else i;
        assert (p[j], p[j + 1]) in g;
      }
      RanksFallAlongPath(g, rank, p, |p| - 1);
    }
  }

  /** A path that comes back to one of its own nodes exhibits a cycle. */
  lemma ReturnIsCycle(g: Graph, trail: seq<string>, node: string)
    requires |trail| >= 1 && IsPath(g, trail) && (trail[|trail| - 1], node) in g && node in trail
    ensures Cyclic(g)
  {
    var i :| 0 <= i < |trail| && trail[i] == node;
    var p := trail[i..] + [node];
    assert IsPath(g, p) by {
      forall k | 0 <= k < |p| - 1 ensures (p[k], p[k + 1]) in g {
        if k < |p| - 2 { assert (trail[i + k], trail[i + k + 1]) in g; }
      }
    }
    assert p[0] == p[|p| - 1] && |p| >= 2;
  }

  // ------------------------------------------- organizational boundary topology

  datatype Boundary = Boundary(producer: string, consumer: string)

  function Topology(boundaries: seq<Boundary>): Graph {
    set b | b in boundaries :: (b.producer, b.consumer)
  }

  /** The search state of `_reject_unadmitted_cycles`. */
  class CycleSearch {
    const edges: map<string, set<string>>
    var active: set<string>
    var visited: set<string>
    ghost const graph: Graph
    ghost const nodes: set<string>
    ghost var rank: map<string, nat>
    ghost var bound: nat

    /** The adjacency table holds exactly the graph. */
    ghost predicate Represents() {
      && (forall e :: e in graph <==> e.0 in edges && e.1 in edges[e.0])
      && (forall e :: e in graph ==> e.0 in nodes && e.1 in nodes)
    }

    /** Finished nodes are ranked, and so is everything they lead to. */
    ghost predicate Valid()
      reads this
    {
      && Represents()
      && rank.Keys == visited && active !! visited
      && (forall x :: x in rank ==> rank[x] < bound)
      && (forall e :: e in graph && e.0 in visited ==> e.1 in visited && rank[e.1] < rank[e.0])
    }

    /** `trail` is the call stack: a path through exactly the active nodes. */
    ghost predicate OnTrail(trail: seq<string>)
      reads this
    {
      (trail != [] ==> IsPath(graph, trail)) && forall x :: x in trail <==> x in active
    }

    constructor (adjacency: map<string, set<string>>, ghost g: Graph)
      requires forall e :: e in g <==> e.0 in adjacency && e.1 in adjacency[e.0]
      ensures Valid() && active == {} && visited == {} && edges == adjacency && graph == g
    {
      edges := adjacency;
      active, visited := {}, {};
      graph := g;
      nodes := (set e | e in g :: e.0) + (set e | e in g :: e.1);
      rank, bound := map[], 0;
    }

    /** Explore `node`; true means that the search raises. */
    method Visit(node: string, ghost trail: seq<string>) returns (cyclic: bool)
      requires Valid() && OnTrail(trail)
      requires trail != [] ==> (trail[|trail| - 1], node) in graph
      requires node in nodes || node !in edges || edges[node] == {}
      modifies this
      ensures cyclic ==> Cyclic(graph)
      ensures !cyclic ==> Valid() && active == old(active) && old(visited) <= visited && node in visited
      decreases nodes + {node} - (active + visited)
    {
      if node in active {
        ReturnIsCycle(graph, trail, node);
        return true;
      }
      if node in visited {
        return false;
      }
      active := active + {node};
      ghost var deeper := trail + [node];
      assert IsPath(graph, deeper);
      var todo := if node in edges then edges[node] else {};
      ghost var out := todo;
      while todo != {}
        invariant Valid() && OnTrail(deeper) && active == old(active) + {node} && old(visited) <= visited
        invariant todo <= out && forall d :: d in out && d !in todo ==> d in visited
        decreases todo
      {
        var destination :| destination in todo;
        todo := todo - {destination};
        assert (node, destination) in graph;
        assert node !in nodes + {destination} - (active + visited);
        cyclic := Visit(destination, deeper);
        if cyclic {
          return true;
        }
      }
      active := active - {node};
      visited := visited + {node};
      rank, bound := rank[node := bound], bound + 1;
      assert active == old(active);
      return false;
    }
  }

  /** The search raises: exactly when the topology has a cycle. */
  method RejectsCycle(boundaries: seq<Boundary>) returns (cyclic: bool)
    ensures cyclic <==> Cyclic(Topology(boundaries))
  {
    var edges: map<string, set<string>> := map[];
    for i := 0 to |boundaries|
      invariant forall e :: e in Topology(boundaries[..i]) <==> e.0 in edges && e.1 in edges[e.0]
    {
      var b := boundaries[i];
      assert boundaries[..i + 1] == boundaries[..i] + [b];
      edges := edges[b.producer := (if b.producer in edges then edges[b.producer] else {}) + {b.consumer}];
    }
    assert boundaries[..|boundaries|] == boundaries;
    ghost var g := Topology(boundaries);
    var search := new CycleSearch(edges, g);
    var todo := edges.Keys;
    while todo != {}
      invariant search.Valid() && search.active == {} && search.edges == edges && search.graph == g
      invariant todo <= edges.Keys && forall x :: x in edges && x !in todo ==> x in search.visited
      decreases todo
    {
      var component :| component in todo;
      todo := todo - {component};
      assert component in search.nodes || edges[component] == {} by {
        if d :| d in edges[component] { assert (component, d) in g; }
      }
      cyclic := search.Visit(component, []);
      if cyclic {
        return true;
      }
    }
    RankExcludesCycle(g, search.rank);
    return false;
  }

  // ------------------------------------------------------- the auditor's parents

  function ParentGraph(parents: map<string, string>): Graph {
    set x | x in parents :: (x, parents[x])
  }

  /** Ranks for a finished trail, above everything ranked before. */
  ghost function TrailRanks(trail: seq<string>, bound: nat): map<string, nat>
    requires forall i, j :: 0 <= i < j < |trail| ==> trail[i] != trail[j]
  {
    map x | x in trail :: bound + |trail| - Position(trail, x)
  }

  ghost function Position(trail: seq<string>, x: string): (i: nat)
    requires x in trail
    ensures i < |trail| && trail[i] == x
  {
    if trail[0] == x then 0 else 1 + Position(trail[1..], x)
  }

  lemma {:induction false} PositionUnique(trail: seq<string>, i: nat)
    requires i < |trail| && forall a, b :: 0 <= a < b < |trail| ==> trail[a] != trail[b]
    ensures Position(trail, trail[i]) == i
  {
  }

  /** Along a trail of parents the ranks fall, and stay above the bound. */
  lemma TrailRanksFall(parents: map<string, string>, trail: seq<string>, bound: nat, last: string)
    requires forall i, j :: 0 <= i < j < |trail| ==> trail[i] != trail[j]
    requires forall x :: x in trail ==> x in parents
    requires forall i :: 0 <= i < |trail| - 1 ==> parents[trail[i]] == trail[i + 1]
    requires trail != [] ==> parents[trail[|trail| - 1]] == last
    ensures forall x :: x in TrailRanks(trail, bound) <==> x in trail
    ensures var added := TrailRanks(trail, bound);
            forall x :: x in trail ==> bound < added[x] <= bound + |trail|
                                       && (parents[x] == last || (parents[x] in trail && added[parents[x]] < added[x]))
  {
    var added := TrailRanks(trail, bound);
    forall x | x in trail ensures parents[x] == last || (parents[x] in trail && added[parents[x]] < added[x]) {
      var i := Position(trail, x);
      if i < |trail| - 1 { PositionUnique(trail, i + 1); }
    }
  }

  lemma TrailReturns(parents: map<string, string>, trail: seq<string>, current: string)
    requires forall x :: x in trail ==> x in parents
    requires forall i :: 0 <= i < |trail| - 1 ==> parents[trail[i]] == trail[i + 1]
    requires current in trail && parents[trail[|trail| - 1]] == current
    ensures Cyclic(ParentGraph(parents))
  {
    assert IsPath(ParentGraph(parents), trail);
    ReturnIsCycle(ParentGraph(parents), trail, current);
  }

  lemma RanksExcludeParentCycle(parents: map<string, string>, rank: map<string, nat>)
    requires forall x :: x in parents ==> x in rank
    requires forall x :: x in parents && parents[x] in parents ==> rank[parents[x]] < rank[x]
    requires rank.Keys <= parents.Keys
    ensures !Cyclic(ParentGraph(parents))
  {
    RankExcludesCycle(ParentGraph(parents), rank);
  }

  /** The walk raises: exactly when the parent map has a cycle. */
  method DetectCycle(parents: map<string, string>) returns (cyclic: bool)
    ensures cyclic <==> Cyclic(ParentGraph(parents))
  {
    hide Cyclic, Descending, IsPath, TrailRanks, Position, ParentGraph;
    var visited: set<string> := {};
    ghost var rank: map<string, nat> := map[];
    ghost var bound: nat := 0;
    var todo := parents.Keys;
    while todo != {}
      invariant todo <= parents.Keys && forall x :: x in parents && x !in todo ==> x in visited
      invariant rank.Keys == visited && visited <= parents.Keys
      invariant forall x :: x in visited ==> rank[x] < bound
      invariant forall x :: x in visited && parents[x] in parents ==> parents[x] in visited && rank[parents[x]] < rank[x]
      decreases todo
    {
      var identity :| identity in todo;
      todo := todo - {identity};
      if identity in visited {
        continue;
      }
      var path: set<string> := {};
      var current := identity;
      ghost var trail: seq<string> := [];
      while current in parents && current !in visited
        invariant forall x :: x in trail <==> x in path
        invariant path <= parents.Keys && path !! visited
        invariant forall i, j :: 0 <= i < j < |trail| ==> trail[i] != trail[j]
        invariant forall i :: 0 <= i < |trail| - 1 ==> parents[trail[i]] == trail[i + 1]
        invariant trail == [] ==> current == identity
        invariant trail != [] ==> trail[0] == identity && parents[trail[|trail| - 1]] == current
        decreases parents.Keys - path
      {
        if current in path {
          TrailReturns(parents, trail, current);
          return true;
        }
        path := path + {current};
        trail := trail + [current];
        current := parents[current];
      }
      ghost var added := TrailRanks(trail, bound);
      TrailRanksFall(parents, trail, bound, current);
      rank := rank + added;
      bound := bound + |trail| + 1;
      visited := visited + path;
    }
    RanksExcludeParentCycle(parents, rank);
    return false;
  }
}
