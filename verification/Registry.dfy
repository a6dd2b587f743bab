/** Loading one workflow definition (runtime/agent/registry.go): declaration checks, graph
    building and Kahn's cycle check. */
module Registry {
  import opened Collections
  import opened Graph
  import opened Workflow

  datatype NodeDecl = NodeDecl(id: NodeId, agent: string)

  datatype LoadError =
    | MissingNodeId | DuplicateNode | UnknownAgent | UnknownEndpoint | NoRoots | ContainsCycle

  datatype LoadResult = Loaded(definition: Definition) | Rejected(error: LoadError)

  ghost predicate DeclarationsValid(decls: seq<NodeDecl>, agents: set<string>) {
    && (forall i | 0 <= i < |decls| :: decls[i].id != "" && decls[i].agent in agents)
    && (forall i, j | 0 <= i < j < |decls| :: decls[i].id != decls[j].id)
  }

  ghost predicate Declared(decls: seq<NodeDecl>, n: NodeId) {
    exists d | d in decls :: d.id == n
  }

  ghost predicate EndpointsDeclared(decls: seq<NodeDecl>, edges: seq<Edge>) {
    forall e | e in edges :: Declared(decls, e.from) && Declared(decls, e.to)
  }

  /** How many members of `s` lie outside `visited`, with repetition. */
  function Outside(s: seq<NodeId>, visited: set<NodeId>): nat {
    if s == [] then 0
    else Outside(s[..|s| - 1], visited) + if s[|s| - 1] in visited then 0 else 1
  }

  /** How often `n` occurs in `s`. */
  function Times(s: seq<NodeId>, n: NodeId): nat {
    if s == [] then 0
    else Times(s[..|s| - 1], n) + if s[|s| - 1] == n then 1 else 0
  }

  lemma TimesAppend(s: seq<NodeId>, x: NodeId, n: NodeId)
    ensures Times(s + [x], n) == Times(s, n) + if x == n then 1 else 0
  {
    assert (s + [x])[..|s|] == s;
  }

  lemma {:induction false} TimesHead(s: seq<NodeId>, n: NodeId)
    requires s != []
    ensures Times(s, n) == Times(s[1..], n) + if s[0] == n then 1 else 0
  {
    if |s| > 1 {
      TimesHead(s[..|s| - 1], n);
      assert s[..|s| - 1][1..] == s[1..][..|s| - 2];
    }
  }

  lemma {:induction false} OutsideNothing(s: seq<NodeId>)
    ensures Outside(s, {}) == |s|
  {
    if s != [] { OutsideNothing(s[..|s| - 1]); }
  }

  lemma {:induction false} OutsideZero(s: seq<NodeId>, visited: set<NodeId>)
    ensures Outside(s, visited) == 0 <==> forall x | x in s :: x in visited
  {
    if s != [] {
      OutsideZero(s[..|s| - 1], visited);
      assert s == s[..|s| - 1] + [s[|s| - 1]];
    }
  }

  lemma OutsideAppend(s: seq<NodeId>, x: NodeId, visited: set<NodeId>)
    ensures Outside(s + [x], visited) == Outside(s, visited) + if x in visited then 0 else 1
  {
    assert (s + [x])[..|s|] == s;
  }

  /** Visiting `c` lowers the open in-degree of `n` by the number of edges from `c` to `n`. */
  lemma {:induction false} VisitLowersDegree(edges: seq<Edge>, n: NodeId, c: NodeId, visited: set<NodeId>)
    requires c !in visited
    ensures Outside(Sources(edges, n), visited)
         == Outside(Sources(edges, n), visited + {c}) + Times(Targets(edges, c), n)
  {
    if edges != [] {
      var front, last := edges[..|edges| - 1], edges[|edges| - 1];
      VisitLowersDegree(front, n, c, visited);
      OutsideAppend(Sources(front, n), last.from, visited);
      OutsideAppend(Sources(front, n), last.from, visited + {c});
      TimesAppend(Targets(front, c), last.to, n);
    }
  }

  /** The bookkeeping of Kahn's loop after visiting `visited`, with the decrements for the
      edges to `pending` still to come. */
  ghost predicate Counting(wf: Definition, visited: set<NodeId>, pending: seq<NodeId>,
                           inDegree: map<NodeId, int>, queue: seq<NodeId>)
  {
    && inDegree.Keys == wf.nodes.Keys && visited <= wf.nodes.Keys
    && (forall n | n in wf.nodes :: inDegree[n] == Outside(Sources(wf.edges, n), visited) + Times(pending, n))
    && Distinct(queue)
    && (forall n | n in queue :: n in wf.nodes && n !in visited && inDegree[n] == 0)
    && (forall n | n in wf.nodes && n !in visited && inDegree[n] == 0 :: n in queue)
    && (forall n | n in visited :: inDegree[n] == 0)
  }

  lemma CountingStarts(wf: Definition, inDegree: map<NodeId, int>)
    requires Consistent(wf) && RootsExact(wf)
    requires inDegree == map n | n in wf.nodes :: |At(wf.parents, n)|
    ensures Counting(wf, {}, [], inDegree, wf.roots)
  {
    forall n | n in wf.nodes ensures inDegree[n] == Outside(Sources(wf.edges, n), {}) {
      OutsideNothing(Sources(wf.edges, n));
    }
  }

  lemma CountingVisits(wf: Definition, visited: set<NodeId>, inDegree: map<NodeId, int>, queue: seq<NodeId>)
    requires Consistent(wf) && Counting(wf, visited, [], inDegree, queue) && queue != []
    ensures queue[0] in wf.nodes && queue[0] !in visited
    ensures Outside(Sources(wf.edges, queue[0]), visited) == 0
    ensures Counting(wf, visited + {queue[0]}, At(wf.children, queue[0]), inDegree, queue[1..])
  {
    var curr := queue[0];
    assert curr in queue;
    forall n | n in wf.nodes
      ensures inDegree[n] == Outside(Sources(wf.edges, n), visited + {curr}) + Times(At(wf.children, curr), n)
    {
      VisitLowersDegree(wf.edges, n, curr, visited);
    }
  }

  lemma CountingLowers(wf: Definition, visited: set<NodeId>, pending: seq<NodeId>,
                       inDegree: map<NodeId, int>, queue: seq<NodeId>)
    requires Counting(wf, visited, pending, inDegree, queue)
    requires pending != [] && pending[0] in wf.nodes
    ensures var child := pending[0];
      var lowered := inDegree[child := inDegree[child] - 1];
      Counting(wf, visited, pending[1..], lowered, if lowered[child] == 0 then queue + [child] else queue)
  {
    var child := pending[0];
    var lowered := inDegree[child := inDegree[child] - 1];
    forall n ensures Times(pending, n) == Times(pending[1..], n) + if child == n then 1 else 0 {
      TimesHead(pending, n);
    }
    assert inDegree[child] >= 1;
    assert child !in queue;
    if lowered[child] == 0 { assert Distinct(queue + [child]); }
  }

  lemma ChildKnown(wf: Definition, curr: NodeId, child: NodeId)
    requires Consistent(wf) && EndpointsKnown(wf) && child in At(wf.children, curr)
    ensures child in wf.nodes
  {
    InTargets(wf.edges, curr, child);
  }

  /** The inner loop: each edge out of the dequeued node lowers its target's open in-degree,
      and a target that reaches zero joins the queue. */
  method LowerChildren(wf: Definition, ghost visited: set<NodeId>, curr: NodeId,
                       degrees: map<NodeId, int>, ready: seq<NodeId>)
    returns (inDegree: map<NodeId, int>, queue: seq<NodeId>)
    requires Consistent(wf) && EndpointsKnown(wf)
    requires degrees.Keys == wf.nodes.Keys
    requires Counting(wf, visited, At(wf.children, curr), degrees, ready)
    ensures inDegree.Keys == wf.nodes.Keys
    ensures Counting(wf, visited, [], inDegree, queue)
  {
    hide Counting, Consistent;
    inDegree, queue := degrees, ready;
    var children := At(wf.children, curr);
    assert children[0..] == children;
    for i := 0 to |children|
      invariant inDegree.Keys == wf.nodes.Keys
      invariant Counting(wf, visited, children[i..], inDegree, queue)
    {
      ChildKnown(wf, curr, children[i]);
      CountingLowers(wf, visited, children[i..], inDegree, queue);
      assert children[i..][1..] == children[i + 1..];
      inDegree := inDegree[children[i] := inDegree[children[i]] - 1];
      if inDegree[children[i]] == 0 {
        queue := queue + [children[i]];
      }
    }
    assert children[|children|..] == [];
  }

  /** Kahn's loop on a built definition. `visitedCount` is what the source compares with the
      number of nodes; `order` records the dequeues. */
  method VisitInOrder(wf: Definition) returns (visitedCount: nat, ghost order: seq<NodeId>)
    requires Consistent(wf) && EndpointsKnown(wf) && RootsExact(wf)
    ensures visitedCount == |order| <= |wf.nodes|
    ensures Distinct(order) && Topological(wf.edges, order)
    ensures forall n | n in order :: n in wf.nodes
    ensures visitedCount == |wf.nodes| <==> Acyclic(wf.edges)
  {
    hide Counting, Consistent, Topological, RootsExact, EndpointsKnown, Acyclic;
    var inDegree: map<NodeId, int> := map n | n in wf.nodes :: |At(wf.parents, n)|;
    CountingStarts(wf, inDegree);
    var queue := wf.roots;
    visitedCount, order := 0, [];
    assert Topological(wf.edges, order) by { EmptyOrder(wf.edges); }
    ghost var visited: set<NodeId> := {};
    while queue != []
      invariant inDegree.Keys == wf.nodes.Keys && visited <= wf.nodes.Keys
      invariant Counting(wf, visited, [], inDegree, queue)
      invariant visitedCount == |order| && Distinct(order)
      invariant forall n :: n in order <==> n in visited
      invariant Topological(wf.edges, order)
      decreases wf.nodes.Keys - visited
    {
      CountingVisits(wf, visited, inDegree, queue);
      EarlierSources(wf.edges, order, visited, queue[0]);
      var curr := queue[0];
      queue := queue[1..];
      visitedCount, order := visitedCount + 1, order + [curr];
      visited := visited + {curr};
      inDegree, queue := LowerChildren(wf, visited, curr, inDegree, queue);
    }
    DistinctCovers(order, visited);
    VisitedAllExactlyWhenAcyclic(wf, visited, inDegree, order);
  }

  lemma VisitedAllExactlyWhenAcyclic(wf: Definition, visited: set<NodeId>, inDegree: map<NodeId, int>,
                                     order: seq<NodeId>)
    requires EndpointsKnown(wf) && Counting(wf, visited, [], inDegree, [])
    requires Topological(wf.edges, order) && forall n :: n in order <==> n in visited
    ensures |visited| <= |wf.nodes|
    ensures |visited| == |wf.nodes| <==> Acyclic(wf.edges)
  {
    var left := wf.nodes.Keys - visited;
    assert |wf.nodes.Keys| == |left| + |visited| by { assert wf.nodes.Keys == left + visited; }
    if left == {} {
      TopologicalIsAcyclic(wf.edges, order);
    } else {
      forall n | n in left ensures HasSourceIn(wf.edges, left, n) {
        OutsideZero(Sources(wf.edges, n), visited);
        var p :| p in Sources(wf.edges, n) && p !in visited;
        InSources(wf.edges, p, n);
      }
      ClosedUnderSourcesIsCyclic(wf.edges, left);
    }
  }

  lemma EmptyOrder(edges: seq<Edge>)
    ensures Topological(edges, [])
  {
  }

  lemma EarlierSources(edges: seq<Edge>, order: seq<NodeId>, visited: set<NodeId>, curr: NodeId)
    requires Topological(edges, order) && forall n :: n in order <==> n in visited
    requires Outside(Sources(edges, curr), visited) == 0
    ensures Topological(edges, order + [curr])
  {
    OutsideZero(Sources(edges, curr), visited);
    var longer := order + [curr];
    forall j, e | 0 <= j < |longer| && e in edges && e.to == longer[j] ensures e.from in longer[..j] {
      assert longer[..j] == order[..j];
      if j == |order| {
        InSources(edges, e.from, curr);
        assert order[..j] == order;
      }
    }
  }

  ghost predicate BuiltFrom(decls: seq<NodeDecl>, nodes: map<NodeId, string>) {
    && (forall d | d in decls :: d.id in nodes && nodes[d.id] == d.agent)
    && (forall n | n in nodes :: Declared(decls, n))
  }

  /** Validates one parsed definition, builds the graph and admits it. */
  method LoadWorkflow(decls: seq<NodeDecl>, links: seq<Edge>, agents: set<string>) returns (r: LoadResult)
    ensures r.Loaded? <==>
      && DeclarationsValid(decls, agents) && EndpointsDeclared(decls, links)
      && decls != [] && Acyclic(links)
    ensures r.Loaded? ==>
      WellFormed(r.definition) && r.definition.edges == links && BuiltFrom(decls, r.definition.nodes)
  {
    var error, nodes := DeclareNodes(decls, agents);
    if error.Some? { return Rejected(error.value); }
    var known, parents, children := BuildEdges(links, nodes);
    if !known {
      assert exists e :: e in links && !(Declared(decls, e.from) && Declared(decls, e.to));
      return Rejected(UnknownEndpoint);
    }
    var roots := FindRoots(nodes, parents);
    var wf := Definition(nodes, links, parents, children, roots);
    if roots == [] {
      if decls != [] {
        assert decls[0] in decls;
        NoRootsIsCyclic(wf);
      }
      return Rejected(NoRoots);
    }
    var visitedCount, _ := VisitInOrder(wf);
    if visitedCount != |nodes| { return Rejected(ContainsCycle); }
    assert roots[0] in roots;
    return Loaded(wf);
  }

  datatype Problem = None | Some(value: LoadError)

  /** The loop that enters the declared nodes. */
  method DeclareNodes(decls: seq<NodeDecl>, agents: set<string>) returns (error: Problem, nodes: map<NodeId, string>)
    ensures error.None? <==> DeclarationsValid(decls, agents)
    ensures error.None? ==> BuiltFrom(decls, nodes)
  {
    nodes := map[];
    for i := 0 to |decls|
      invariant DeclarationsValid(decls[..i], agents) && BuiltFrom(decls[..i], nodes)
    {
      var d := decls[i];
      assert decls[..i + 1] == decls[..i] + [d];
      if d.id == "" { return Some(MissingNodeId), nodes; }
      if d.id in nodes { return Some(DuplicateNode), nodes; }
      if d.agent !in agents { return Some(UnknownAgent), nodes; }
      nodes := nodes[d.id := d.agent];
    }
    assert decls[..|decls|] == decls;
    return None, nodes;
  }

  lemma NoEdges(links: seq<Edge>)
    ensures forall n :: Sources(links[..0], n) == [] && Targets(links[..0], n) == []
  {
  }

  lemma OneMoreEdge(links: seq<Edge>, e: Edge)
    ensures forall n :: Sources(links + [e], n) == Sources(links, n) + if e.to == n then [e.from] else []
    ensures forall n :: Targets(links + [e], n) == Targets(links, n) + if e.from == n then [e.to] else []
  {
    assert (links + [e])[..|links|] == links;
  }

  /** The loop that fills the two adjacency maps. */
  method BuildEdges(links: seq<Edge>, nodes: map<NodeId, string>)
    returns (known: bool, parents: map<NodeId, seq<NodeId>>, children: map<NodeId, seq<NodeId>>)
    ensures known <==> forall e | e in links :: e.from in nodes && e.to in nodes
    ensures known ==> forall n :: At(parents, n) == Sources(links, n) && At(children, n) == Targets(links, n)
  {
    hide Sources, Targets;
    parents, children := map[], map[];
    NoEdges(links);
    for i := 0 to |links|
      invariant forall n :: At(parents, n) == Sources(links[..i], n)
      invariant forall n :: At(children, n) == Targets(links[..i], n)
      invariant forall e | e in links[..i] :: e.from in nodes && e.to in nodes
    {
      var e := links[i];
      assert links[..i + 1] == links[..i] + [e];
      if e.from !in nodes || e.to !in nodes { return false, parents, children; }
      OneMoreEdge(links[..i], e);
      parents := parents[e.to := At(parents, e.to) + [e.from]];
      children := children[e.from := At(children, e.from) + [e.to]];
    }
    assert links[..|links|] == links;
    return true, parents, children;
  }

  /** The parentless nodes, in some order (the source ranges over a map). */
  method FindRoots(nodes: map<NodeId, string>, parents: map<NodeId, seq<NodeId>>) returns (roots: seq<NodeId>)
    ensures Distinct(roots)
    ensures forall n :: n in roots <==> n in nodes && At(parents, n) == []
  {
    roots := [];
    var left := nodes.Keys;
    while left != {}
      invariant left <= nodes.Keys && Distinct(roots)
      invariant forall n :: n in roots <==> n in nodes && n !in left && At(parents, n) == []
      decreases left
    {
      var n :| n in left;
      left := left - {n};
      if |At(parents, n)| == 0 { roots := roots + [n]; }
    }
  }

  lemma NoRootsIsCyclic(wf: Definition)
    requires Consistent(wf) && EndpointsKnown(wf) && RootsExact(wf)
    requires wf.roots == [] && wf.nodes.Keys != {}
    ensures !Acyclic(wf.edges)
  {
    forall n | n in wf.nodes.Keys ensures HasSourceIn(wf.edges, wf.nodes.Keys, n) {
      assert n !in wf.roots;
      InSources(wf.edges, At(wf.parents, n)[0], n);
    }
    ClosedUnderSourcesIsCyclic(wf.edges, wf.nodes.Keys);
  }
}
