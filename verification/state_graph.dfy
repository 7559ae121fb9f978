/**
 * The topology the scripts declare with `add_node`, `add_edge` and
 * `add_conditional_edges`: registered nodes, static edges between vertices
 * (including the START and END sentinels), and per-node label-to-destination
 * tables for conditional edges. Only the declared shape is modelled here; the
 * library that executes a graph is not.
 */
module StateGraph {
  import opened Wrappers

  /** A vertex of a graph: the START sentinel, a registered node, or the END sentinel. */
  datatype Vertex<N> = Start | Node(name: N) | End

  /** The registry a builder accumulates: nodes in registration order, static edges, conditional edges. */
  datatype Topology<N(==), L(==)> = Topology(
    nodes: seq<N>,
    edges: seq<(Vertex<N>, Vertex<N>)>,
    branches: map<N, map<L, Vertex<N>>>)

  /** `w` can follow `v`: a static edge, or a destination of `v`'s conditional edge. */
  predicate Edge<N(==), L(==)>(g: Topology<N, L>, v: Vertex<N>, w: Vertex<N>) {
    (v, w) in g.edges || (v.Node? && v.name in g.branches && w in g.branches[v.name].Values)
  }

  /** Consecutive vertices of `p` are joined by edges of `g`. */
  predicate IsPath<N(==), L(==)>(g: Topology<N, L>, p: seq<Vertex<N>>) {
    forall i :: 0 <= i < |p| - 1 ==> Edge(g, p[i], p[i + 1])
  }

  /** The compile-time checks the scripts' graphs pass: known endpoints, one entry, sentinels used one way. */
  predicate WellFormed<N(==), L(==)>(g: Topology<N, L>) {
    && (forall i, j :: 0 <= i < j < |g.nodes| ==> g.nodes[i] != g.nodes[j])
    && (forall e :: e in g.edges ==> e.0 != End && e.1 != Start)
    && (forall e :: e in g.edges && e.0.Node? ==> e.0.name in g.nodes)
    && (forall e :: e in g.edges && e.1.Node? ==> e.1.name in g.nodes)
    && (forall n :: n in g.branches ==> n in g.nodes)
    && (forall n, l :: n in g.branches && l in g.branches[n] ==>
          g.branches[n][l] != Start && (g.branches[n][l].Node? ==> g.branches[n][l].name in g.nodes))
    && |set e | e in g.edges && e.0 == Start| == 1
  }

  /** The destination of the first static edge registered out of `v`, if any. */
  function StaticTarget<N(==)>(edges: seq<(Vertex<N>, Vertex<N>)>, v: Vertex<N>): (r: Option<Vertex<N>>)
    ensures r.Some? ==> (v, r.value) in edges
    ensures r.None? ==> forall i :: 0 <= i < |edges| ==> edges[i].0 != v
  {
    if edges == [] then None
    else if edges[0].0 == v then Some(edges[0].1)
    else StaticTarget(edges[1..], v)
  }

  /**
   * The vertex that follows `v` once its router (if it has a conditional edge) chose `chosen`.
   * A missing or unmapped label, or a node without outgoing edges, gives no vertex.
   */
  function Next<N(==), L(==)>(g: Topology<N, L>, v: Vertex<N>, chosen: Option<L>): (r: Option<Vertex<N>>)
    ensures r.Some? ==> Edge(g, v, r.value)
    ensures v.Node? && v.name in g.branches ==>
              (r.Some? <==> chosen.Some? && chosen.value in g.branches[v.name])
    ensures v.Node? && v.name in g.branches && chosen.Some? && chosen.value in g.branches[v.name] ==>
              r == Some(g.branches[v.name][chosen.value])
    ensures r.None? && !(v.Node? && v.name in g.branches) ==>
              forall i :: 0 <= i < |g.edges| ==> g.edges[i].0 != v
  {
    if v.Node? && v.name in g.branches then
      if chosen.Some? && chosen.value in g.branches[v.name] then Some(g.branches[v.name][chosen.value]) else None
    else
      StaticTarget(g.edges, v)
  }

  /**
   * The builder the scripts mutate: each `add_*` call extends one of its
   * registries and leaves the others as they were.
   */
  class GraphBuilder<N(==), L(==)> {
    var nodes: seq<N>
    var edges: seq<(Vertex<N>, Vertex<N>)>
    var branches: map<N, map<L, Vertex<N>>>

    /** What has been registered so far. */
    function Registered(): Topology<N, L>
      reads this
    {
      Topology(nodes, edges, branches)
    }

    constructor ()
      ensures Registered() == Topology([], [], map[])
    {
      nodes, edges, branches := [], [], map[];
    }

    /** `add_node(name, fn)`: a name may be registered once. */
    method AddNode(name: N)
      requires name !in nodes
      modifies this
      ensures Registered() == old(Registered()).(nodes := old(nodes) + [name])
    {
      nodes := nodes + [name];
    }

    /** `add_edge(source, target)`. */
    method AddEdge(source: Vertex<N>, target: Vertex<N>)
      modifies this
      ensures Registered() == old(Registered()).(edges := old(edges) + [(source, target)])
    {
      edges := edges + [(source, target)];
    }

    /** `add_conditional_edges(source, router, routes)`: one routing table per source node. */
    method AddConditionalEdges(source: N, routes: map<L, Vertex<N>>)
      requires source !in branches
      modifies this
      ensures Registered() == old(Registered()).(branches := old(branches)[source := routes])
    {
      branches := branches[source := routes];
    }
  }
}
