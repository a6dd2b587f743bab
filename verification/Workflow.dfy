/** Workflow definitions: the node table, the edge list, and the two adjacency maps and the
    root list that are derived from it when a definition is loaded. */
module Workflow {
  import opened Collections
  import opened Graph

  datatype Definition = Definition(
    nodes: map<NodeId, string>,
    edges: seq<Edge>,
    parents: map<NodeId, seq<NodeId>>,
    children: map<NodeId, seq<NodeId>>,
    roots: seq<NodeId>)

  /** A missing key of an adjacency map reads as the empty list. */
  function At(m: map<NodeId, seq<NodeId>>, n: NodeId): seq<NodeId> {
    if n in m then m[n] else []
  }

  /** Edges, Parents and Children describe one relation, with multiplicity and order. */
  ghost predicate Consistent(wf: Definition) {
    && (forall n :: At(wf.parents, n) == Sources(wf.edges, n))
    && (forall n :: At(wf.children, n) == Targets(wf.edges, n))
  }

  ghost predicate EndpointsKnown(wf: Definition) {
    forall e | e in wf.edges :: e.from in wf.nodes && e.to in wf.nodes
  }

  ghost predicate RootsExact(wf: Definition) {
    && Distinct(wf.roots)
    && forall n :: n in wf.roots <==> n in wf.nodes && At(wf.parents, n) == []
  }

  ghost predicate WellFormed(wf: Definition) {
    && wf.nodes.Keys != {}
    && Consistent(wf)
    && EndpointsKnown(wf)
    && RootsExact(wf)
    && Acyclic(wf.edges)
  }
}
