/** Directed graphs given by a list of edges, as workflow definitions hold them: edges may
    repeat and an edge may lead from a node to itself. Acyclicity is stated on walks, so it
    does not depend on any algorithm that decides it. */
module Graph {
  import opened Collections

  type NodeId = string

  datatype Edge = Edge(from: NodeId, to: NodeId)

  /** The sources of the edges into `n`, in edge order, with repetition. */
  function Sources(edges: seq<Edge>, n: NodeId): seq<NodeId> {
    if edges == [] then []
    else
      var last := edges[|edges| - 1];
      var rest := Sources(edges[..|edges| - 1], n);
      if last.to == n then rest + [last.from] else rest
  }

  /** The targets of the edges out of `n`, in edge order, with repetition. */
  function Targets(edges: seq<Edge>, n: NodeId): seq<NodeId> {
    if edges == [] then []
    else
      var last := edges[|edges| - 1];
      var rest := Targets(edges[..|edges| - 1], n);
      if last.from == n then rest + [last.to] else rest
  }

  ghost predicate Linked(edges: seq<Edge>, walk: seq<NodeId>, i: nat)
    requires i + 1 < |walk|
  {
    Edge(walk[i], walk[i + 1]) in edges
  }

  ghost predicate IsWalk(edges: seq<Edge>, walk: seq<NodeId>) {
    forall i: nat | i + 1 < |walk| :: Linked(edges, walk, i)
  }

  ghost predicate IsCycle(edges: seq<Edge>, walk: seq<NodeId>) {
    |walk| >= 2 && IsWalk(edges, walk) && walk[0] == walk[|walk| - 1]
  }

  ghost predicate Acyclic(edges: seq<Edge>) {
    forall walk :: !IsCycle(edges, walk)
  }

  /** `order` lists every predecessor of each of its members before that member. */
  ghost predicate Topological(edges: seq<Edge>, order: seq<NodeId>) {
    forall j, e | 0 <= j < |order| && e in edges && e.to == order[j] :: e.from in order[..j]
  }

  ghost predicate HasSourceIn(edges: seq<Edge>, nodes: set<NodeId>, n: NodeId) {
    exists p | p in nodes :: Edge(p, n) in edges
  }

  lemma {:induction false} InSources(edges: seq<Edge>, from: NodeId, to: NodeId)
    ensures from in Sources(edges, to) <==> Edge(from, to) in edges
  {
    if edges != [] {
      InSources(edges[..|edges| - 1], from, to);
      assert edges == edges[..|edges| - 1] + [edges[|edges| - 1]];
    }
  }

  lemma {:induction false} InTargets(edges: seq<Edge>, from: NodeId, to: NodeId)
    ensures to in Targets(edges, from) <==> Edge(from, to) in edges
  {
    if edges != [] {
      InTargets(edges[..|edges| - 1], from, to);
      assert edges == edges[..|edges| - 1] + [edges[|edges| - 1]];
    }
  }

  /** A nonempty set in which every node has a predecessor contains a cycle: following
      predecessors backwards must revisit a node. */
  lemma ClosedUnderSourcesIsCyclic(edges: seq<Edge>, nodes: set<NodeId>)
    requires nodes != {}
    requires forall n | n in nodes :: HasSourceIn(edges, nodes, n)
    ensures !Acyclic(edges)
  {
    var n :| n in nodes;
    FollowBackwards(edges, nodes, [n]);
  }

  lemma {:induction false} FollowBackwards(edges: seq<Edge>, nodes: set<NodeId>, walk: seq<NodeId>)
    requires forall n | n in nodes :: HasSourceIn(edges, nodes, n)
    requires walk != [] && IsWalk(edges, walk) && Distinct(walk)
    requires forall n | n in walk :: n in nodes
    ensures !Acyclic(edges)
    decreases |nodes| + 1 - |walk|
  {
    DistinctCardinality(walk, nodes);
    assert HasSourceIn(edges, nodes, walk[0]);
    var p :| p in nodes && Edge(p, walk[0]) in edges;
    var longer := [p] + walk;
    forall i: nat | i + 1 < |longer| ensures Linked(edges, longer, i) {
      if i > 0 { assert Linked(edges, walk, i - 1); }
    }
    if p in walk {
      var i :| 0 <= i < |walk| && walk[i] == p;
      var cycle := longer[..i + 2];
      forall j: nat | j + 1 < |cycle| ensures Linked(edges, cycle, j) {
        assert Linked(edges, longer, j);
      }
      assert IsCycle(edges, cycle);
    } else {
      FollowBackwards(edges, nodes, longer);
    }
  }

  /** A topological order that covers every edge target rules out cycles. */
  lemma TopologicalIsAcyclic(edges: seq<Edge>, order: seq<NodeId>)
    requires Topological(edges, order)
    requires forall e | e in edges :: e.to in order
    ensures Acyclic(edges)
  {
    forall walk ensures !IsCycle(edges, walk) {
      if IsCycle(edges, walk) {
        assert Linked(edges, walk, |walk| - 2);
        var j :| 0 <= j < |order| && order[j] == walk[|walk| - 1];
        WalkGoesBack(edges, order, walk, |walk| - 1, j);
      }
    }
  }

  /** Walking an edge backwards moves strictly earlier in a topological order, so the start of
      a closed walk can be found ever earlier. */
  lemma {:induction false} WalkGoesBack(edges: seq<Edge>, order: seq<NodeId>, walk: seq<NodeId>, i: nat, j: nat)
    requires Topological(edges, order) && IsCycle(edges, walk)
    requires 0 < i < |walk| && j < |order| && order[j] == walk[i]
    ensures false
    decreases j
  {
    assert Linked(edges, walk, i - 1);
    var e := Edge(walk[i - 1], walk[i]);
    assert e.from in order[..j];
    var k :| 0 <= k < j && order[k] == e.from;
    WalkGoesBack(edges, order, walk, if i == 1 then |walk| - 1 else i - 1, k);
  }

  /** A new edge into a node that no edge touches, from another node, closes no cycle. */
  lemma AddSinkKeepsAcyclic(edges: seq<Edge>, from: NodeId, to: NodeId)
    requires Acyclic(edges) && from != to
    requires forall e | e in edges :: e.from != to
    ensures Acyclic(edges + [Edge(from, to)])
  {
    var more := edges + [Edge(from, to)];
    forall walk ensures !IsCycle(more, walk) {
      if IsCycle(more, walk) {
        forall i: nat | i + 1 < |walk| ensures Linked(edges, walk, i) {
          assert Linked(more, walk, i);
          if walk[i + 1] == to {
            assert Linked(more, walk, if i + 2 < |walk| then i + 1 else 0);
          }
        }
        assert IsCycle(edges, walk);
      }
    }
  }
}
