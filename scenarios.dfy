/**
 * End-to-end checks of the route engine on the fixed ten-city graph: the
 * exact routes of two searches, taken from their iteration-by-iteration
 * evaluation, and, independently of the engine, lower bounds on every walk
 * from a node potential that no edge can outrun.
 */
module Scenarios {
  import opened Wrappers
  import opened GraphData
  import opened Search
  import opened SearchCorrect
  import opened Traces

  /** Across every edge, `h` changes by at most the edge's weight in metric `m`. */
  ghost predicate Potential(g: Graph, m: Metric, h: Node -> real) {
    forall i :: 0 <= i < |g.edges| ==>
      && h(g.edges[i].b) - h(g.edges[i].a) <= Weight(g.edges[i], m)
      && h(g.edges[i].a) - h(g.edges[i].b) <= Weight(g.edges[i], m)
  }

  /** No walk weighs less than the rise of a potential from its first node to its last. */
  lemma {:induction false} PotentialBound(g: Graph, m: Metric, h: Node -> real, vs: seq<Node>, es: seq<nat>)
    requires IsWalk(g, vs, es) && Potential(g, m, h)
    ensures ValidEdgeIndices(g, es)
    ensures h(vs[|vs| - 1]) - h(vs[0]) <= WalkWeight(g, es, m)
  {
    if es != [] {
      var n := |es|;
      var vs', es' := vs[..n], es[..n - 1];
      assert IsWalk(g, vs', es') by {
        forall j | 0 <= j < n - 1 ensures es'[j] < |g.edges| && Joins(g.edges[es'[j]], vs'[j], vs'[j + 1]) {
          assert es[j] < |g.edges| && Joins(g.edges[es[j]], vs[j], vs[j + 1]);
        }
      }
      PotentialBound(g, m, h, vs', es');
      assert Joins(g.edges[es[n - 1]], vs[n - 1], vs[n]);
    }
  }

  /** The least total distance from `A` to each city. */
  function DistanceFromA(n: Node): real {
    match n
    case "B" => 5.0
    case "C" => 10.0
    case "D" => 15.0
    case "E" => 15.0
    case "F" => 13.0
    case "G" => 21.0
    case "H" => 24.0
    case "I" => 29.0
    case "J" => 27.0
    case _ => 0.0
  }

  /** The least total toll from `A` to each city. */
  function TollFromA(n: Node): real {
    match n
    case "B" => 1.5
    case "C" => 0.5
    case "D" => 2.0
    case "E" => 1.0
    case "F" => 0.5
    case "G" => 2.0
    case "H" => 2.5
    case "I" => 2.0
    case "J" => 2.0
    case _ => 0.0
  }

  lemma DistanceFromAIsPotential()
    ensures Potential(PredefinedGraph, Distance, DistanceFromA)
  {
    forall i | 0 <= i < |PredefinedGraph.edges|
      ensures DistanceFromA(PredefinedGraph.edges[i].b) - DistanceFromA(PredefinedGraph.edges[i].a) <= Weight(PredefinedGraph.edges[i], Distance)
      ensures DistanceFromA(PredefinedGraph.edges[i].a) - DistanceFromA(PredefinedGraph.edges[i].b) <= Weight(PredefinedGraph.edges[i], Distance)
    {
      // a few edges at a time
      if i < 5 {
      } else if i < 10 {
      } else if i < 15 {
      } else {
      }
    }
  }

  lemma TollFromAIsPotential()
    ensures Potential(PredefinedGraph, Toll, TollFromA)
  {
    forall i | 0 <= i < |PredefinedGraph.edges|
      ensures TollFromA(PredefinedGraph.edges[i].b) - TollFromA(PredefinedGraph.edges[i].a) <= Weight(PredefinedGraph.edges[i], Toll)
      ensures TollFromA(PredefinedGraph.edges[i].a) - TollFromA(PredefinedGraph.edges[i].b) <= Weight(PredefinedGraph.edges[i], Toll)
    {
      // a few edges at a time
      if i < 5 {
      } else if i < 10 {
      } else if i < 15 {
      } else {
      }
    }
  }

  /** No walk from `A` to `F` is shorter than 13. */
  lemma NoShorterWalkAToF(vs: seq<Node>, es: seq<nat>)
    requires WalkFromTo(PredefinedGraph, vs, es, "A", "F")
    ensures ValidEdgeIndices(PredefinedGraph, es)
    ensures WalkWeight(PredefinedGraph, es, Distance) >= 13.0
  {
    DistanceFromAIsPotential();
    PotentialBound(PredefinedGraph, Distance, DistanceFromA, vs, es);
  }

  /** No walk from `A` to `J` has a total toll below 2. */
  lemma NoCheaperWalkAToJ(vs: seq<Node>, es: seq<nat>)
    requires WalkFromTo(PredefinedGraph, vs, es, "A", "J")
    ensures ValidEdgeIndices(PredefinedGraph, es)
    ensures WalkWeight(PredefinedGraph, es, Toll) >= 2.0
  {
    TollFromAIsPotential();
    PotentialBound(PredefinedGraph, Toll, TollFromA, vs, es);
  }

  /**
   * `findShortestPath(predefinedGraph, "A", "F")` returns the path `A`, `B`,
   * `F` with distance 13 and toll 2.5, whenever its main loop stops.
   */
  lemma ShortestAToF(k: nat)
    requires Halted(Run(PredefinedGraph, ByDistance, "A", "F", k))
    ensures WellFormed(PredefinedGraph)
    ensures Answer(PredefinedGraph, ByDistance, "A", "F", k) == Ok(Route(["A", "B", "F"], 13.0, 2.5))
  {
    var n := RunAF();
    AnswerStable(PredefinedGraph, ByDistance, "A", "F", n, k);
  }

  /**
   * `findCheapestPath(predefinedGraph, "A", "J")` returns the path `A`, `C`,
   * `F`, `J` with toll 2 and distance 27, whenever its main loop stops.
   */
  lemma CheapestAToJ(k: nat)
    requires Halted(Run(PredefinedGraph, ByToll, "A", "J", k))
    ensures WellFormed(PredefinedGraph)
    ensures Answer(PredefinedGraph, ByToll, "A", "J", k) == Ok(Route(["A", "C", "F", "J"], 27.0, 2.0))
  {
    var n := RunAJ();
    AnswerStable(PredefinedGraph, ByToll, "A", "J", n, k);
  }

  /** Asking for the route from a city to itself ends in "no path", under either policy. */
  lemma SameCityHasNoPath(p: Policy, n: Node, k: nat)
    requires n in PredefinedGraph.nodes && Halted(Run(PredefinedGraph, p, n, n, k))
    ensures WellFormed(PredefinedGraph)
    ensures Answer(PredefinedGraph, p, n, n, k) == Err(NoPath)
  {
    PredefinedWellFormed();
    NoPathExactly(PredefinedGraph, p, n, n, k);
  }
}
