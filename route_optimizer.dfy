/**
 * The application's one call into the engine: the fixed graph, and the
 * "prioritize cost" switch choosing between the cheapest and the shortest
 * route.
 */
module RouteOptimizer {
  import opened Wrappers
  import opened GraphData
  import opened Search
  import opened SearchCorrect
  import opened Dijkstra

  /** The switch on ranks by toll, off by distance. */
  function PolicyFor(prioritizeCost: bool): Policy {
    if prioritizeCost then ByToll else ByDistance
  }

  /** The route the form asks for: `findCheapestPath` or `findShortestPath` on the fixed graph. */
  method ComputeRoute(prioritizeCost: bool, start: Node, end: Node) returns (r: Result<Route, RouteError>, ghost steps: nat)
    ensures WellFormed(PredefinedGraph)
    ensures start in PredefinedGraph.nodes && end in PredefinedGraph.nodes ==> Halted(Run(PredefinedGraph, PolicyFor(prioritizeCost), start, end, steps))
    ensures r == Answer(PredefinedGraph, PolicyFor(prioritizeCost), start, end, steps)
    ensures Meets(PredefinedGraph, PolicyFor(prioritizeCost), start, end, r)
  {
    PredefinedWellFormed();
    if prioritizeCost {
      r, steps := FindCheapestPath(PredefinedGraph, start, end);
    } else {
      r, steps := FindShortestPath(PredefinedGraph, start, end);
    }
  }
}
