/**
 * The graph value the route engine runs on: a list of node names and a list
 * of undirected edges `[u, v, distance, toll]`, and the fixed ten-city
 * instance the application queries.
 */
module GraphData {

  type Node = string

  /** One tuple `[node1, node2, distance, toll]` of the edge list. */
  datatype Edge = Edge(a: Node, b: Node, distance: real, toll: real)

  datatype Graph = Graph(nodes: seq<Node>, edges: seq<Edge>)

  /** The two weights an edge carries. */
  datatype Metric = Distance | Toll

  function Weight(e: Edge, m: Metric): real {
    match m
    case Distance => e.distance
    case Toll => e.toll
  }

  ghost function NodeSet(g: Graph): set<Node> {
    set n | n in g.nodes
  }

  // ---------------------------------------------------------------------
  // Well-formedness

  /** Every edge endpoint is one of the graph's nodes. */
  ghost predicate EndpointsKnown(g: Graph) {
    forall i :: 0 <= i < |g.edges| ==> g.edges[i].a in g.nodes && g.edges[i].b in g.nodes
  }

  /** No distance and no toll is negative. */
  ghost predicate NonNegativeWeights(g: Graph) {
    forall i :: 0 <= i < |g.edges| ==> g.edges[i].distance >= 0.0 && g.edges[i].toll >= 0.0
  }

  /**
   * No node is named by the empty string, which the engine skips as falsy,
   * or by `__proto__`, which is not an ordinary key of the plain objects
   * the engine keeps its records in.
   */
  ghost predicate NamedNodes(g: Graph) {
    forall i :: 0 <= i < |g.nodes| ==> g.nodes[i] != "" && g.nodes[i] != "__proto__"
  }

  ghost predicate NoSelfLoops(g: Graph) {
    forall i :: 0 <= i < |g.edges| ==> g.edges[i].a != g.edges[i].b
  }

  ghost predicate DistinctNodes(g: Graph) {
    forall i, j :: 0 <= i < j < |g.nodes| ==> g.nodes[i] != g.nodes[j]
  }

  /** What the route engine needs of its graph. */
  ghost predicate WellFormed(g: Graph) {
    EndpointsKnown(g) && NonNegativeWeights(g) && NamedNodes(g)
  }

  // ---------------------------------------------------------------------
  // Walks

  /** Edge `e` joins `u` and `v`, in one orientation or the other. */
  ghost predicate Joins(e: Edge, u: Node, v: Node) {
    (e.a == u && e.b == v) || (e.a == v && e.b == u)
  }

  /** `vs` is a walk whose `i`-th step uses the edge at index `es[i]`. */
  ghost predicate IsWalk(g: Graph, vs: seq<Node>, es: seq<nat>) {
    && |vs| == |es| + 1
    && forall i :: 0 <= i < |es| ==> es[i] < |g.edges| && Joins(g.edges[es[i]], vs[i], vs[i + 1])
  }

  ghost predicate WalkFromTo(g: Graph, vs: seq<Node>, es: seq<nat>, s: Node, t: Node) {
    IsWalk(g, vs, es) && vs[0] == s && vs[|vs| - 1] == t
  }

  ghost predicate Reachable(g: Graph, s: Node, t: Node) {
    exists vs, es :: WalkFromTo(g, vs, es, s, t)
  }

  ghost predicate ValidEdgeIndices(g: Graph, es: seq<nat>) {
    forall i :: 0 <= i < |es| ==> es[i] < |g.edges|
  }

  /** The total of one weight along the edges `es` of a walk. */
  ghost function WalkWeight(g: Graph, es: seq<nat>, m: Metric): real
    requires ValidEdgeIndices(g, es)
  {
    if es == [] then 0.0 else WalkWeight(g, es[..|es| - 1], m) + Weight(g.edges[es[|es| - 1]], m)
  }

  lemma {:induction false} WalkWeightNonNegative(g: Graph, es: seq<nat>, m: Metric)
    requires NonNegativeWeights(g) && ValidEdgeIndices(g, es)
    ensures WalkWeight(g, es, m) >= 0.0
  {
    if es != [] {
      WalkWeightNonNegative(g, es[..|es| - 1], m);
    }
  }

  /** With non-negative weights a prefix of a walk never weighs more than the walk. */
  lemma {:induction false} WalkWeightPrefix(g: Graph, es: seq<nat>, k: nat, m: Metric)
    requires NonNegativeWeights(g) && ValidEdgeIndices(g, es) && k <= |es|
    ensures WalkWeight(g, es[..k], m) <= WalkWeight(g, es, m)
  {
    if k < |es| {
      assert es[..|es| - 1][..k] == es[..k];
      WalkWeightPrefix(g, es[..|es| - 1], k, m);
    } else {
      assert es[..k] == es;
    }
  }

  /** Extending a walk by one edge adds that edge's weight. */
  lemma WalkWeightSnoc(g: Graph, es: seq<nat>, i: nat, m: Metric)
    requires ValidEdgeIndices(g, es) && i < |g.edges|
    ensures ValidEdgeIndices(g, es + [i])
    ensures WalkWeight(g, es + [i], m) == WalkWeight(g, es, m) + Weight(g.edges[i], m)
  {
    assert (es + [i])[..|es|] == es;
  }

  /** A walk extended by an edge at its last node is a walk. */
  lemma WalkSnoc(g: Graph, vs: seq<Node>, es: seq<nat>, i: nat, v: Node)
    requires IsWalk(g, vs, es) && i < |g.edges| && Joins(g.edges[i], vs[|vs| - 1], v)
    ensures IsWalk(g, vs + [v], es + [i])
  {
    var vs', es' := vs + [v], es + [i];
    forall j | 0 <= j < |es'| ensures es'[j] < |g.edges| && Joins(g.edges[es'[j]], vs'[j], vs'[j + 1]) {
      if j < |es| {
        assert es'[j] == es[j] && vs'[j] == vs[j] && vs'[j + 1] == vs[j + 1];
      }
    }
  }

  // ---------------------------------------------------------------------
  // The fixed instance: ten cities A-J and nineteen roads

  const PredefinedGraph: Graph := Graph(
    ["A", "B", "C", "D", "E", "F", "G", "H", "I", "J"],
    [
      Edge("A", "B", 5.0, 1.5),
      Edge("A", "C", 10.0, 0.5),
      Edge("A", "D", 15.0, 2.0),
      Edge("B", "E", 12.0, 2.5),
      Edge("B", "F", 8.0, 1.0),
      Edge("C", "F", 3.0, 0.0),
      Edge("C", "G", 11.0, 1.5),
      Edge("D", "G", 7.0, 1.0),
      Edge("D", "H", 9.0, 0.5),
      Edge("E", "I", 18.0, 3.0),
      Edge("F", "I", 16.0, 2.5),
      Edge("F", "J", 14.0, 1.5),
      Edge("G", "J", 10.0, 2.0),
      Edge("H", "J", 6.0, 1.0),
      Edge("I", "J", 4.0, 0.0),
      Edge("B", "C", 6.0, 1.0),
      Edge("E", "F", 2.0, 0.5),
      Edge("G", "H", 4.0, 0.5),
      Edge("H", "I", 13.0, 2.0)
    ])

  /** The node list is the ten single-letter names A to J. */
  lemma PredefinedNodes()
    ensures PredefinedGraph.nodes == ["A", "B", "C", "D", "E", "F", "G", "H", "I", "J"]
    ensures forall i :: 0 <= i < |PredefinedGraph.nodes| ==> |PredefinedGraph.nodes[i]| == 1
  {
  }

  /** No name occurs twice in the fixed node list. */
  lemma PredefinedDistinct()
    ensures DistinctNodes(PredefinedGraph)
  {
  }

  /** Every endpoint of the fixed graph is one of its nodes. */
  lemma PredefinedEndpointsKnown()
    ensures EndpointsKnown(PredefinedGraph)
  {
  }

  /** No edge of the fixed graph is a self-loop. */
  lemma PredefinedNoSelfLoops()
    ensures NoSelfLoops(PredefinedGraph)
  {
  }

  /** Every distance and every toll of the fixed graph is non-negative. */
  lemma PredefinedNonNegative()
    ensures NonNegativeWeights(PredefinedGraph)
  {
  }

  lemma PredefinedNamed()
    ensures NamedNodes(PredefinedGraph)
  {
  }

  /** The fixed graph has nineteen edges and satisfies everything the engine needs. */
  lemma PredefinedWellFormed()
    ensures |PredefinedGraph.edges| == 19
    ensures WellFormed(PredefinedGraph)
  {
    PredefinedEndpointsKnown();
    PredefinedNonNegative();
    PredefinedNamed();
  }
}
