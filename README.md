# Route engine of the toll-aware trip planner, in Dafny

The planner finds a route between two of ten cities, joined by undirected roads.
Each road has a distance and a toll. The engine is Dijkstra's algorithm over a
sorted-list priority queue. It comes in two variants: `findShortestPath` ranks by
distance and carries the toll along the chosen route, and `findCheapestPath` does
the reverse. The application calls one or the other on its fixed graph,
depending on a "prioritize cost" switch.

The project models that engine.

- `wrappers.dfy` holds `Option` and `Result`.
- `costs.dfy` (module `Costs`) holds a cost that is a finite real or `Infinity`, together
  with the comparisons and the addition the engine performs on it.
- `queues.dfy` (module `Queues`) is the `PriorityQueue` class. Its `items` is a sequence
  that `Enqueue` and `Dequeue` update in place. `Insert` is the list `enqueue`
  produces, and the lemmas about it state sortedness, placement (ties keep arrival
  order) and contents.
- `graph_data.dfy` (module `GraphData`) holds the graph value, its well-formedness
  predicates, walks and their weights, and the fixed ten-city instance with its
  properties.
- `search.dfy` (module `Search`) describes the engine as pure functions over a search
  state:
  - seeding;
  - one iteration of the main loop: dequeue, stop at the destination, relax
    every incident edge in edge-list order;
  - `Run`, the state after `k` iterations.

  Both variants are one search with a `Policy` parameter that names the ranked
  weight. The state also records, as proof bookkeeping, the order in which nodes
  were first expanded and the edge behind each `previous` link.
- `search_invariant.dfy` (module `SearchInvariant`) holds the search invariant, its
  preservation by every iteration, and termination.
- `search_correct.dfy` (module `SearchCorrect`) holds the guarantees:
  - the destination's cost is the least ranked weight of any walk;
  - the `previous` chain is a walk that carries exactly the reported totals;
  - "no path" comes back exactly when the start is the destination or cannot
    reach it.

  `Answer` is the engine's result once its loop has stopped.
- `dijkstra.dfy` (module `Dijkstra`) is the engine as the source writes it:
  - three maps (ranked cost, carried metric, `previous`) and the queue object;
  - the seeding loop, the main `while` loop, the inner pass over the edges, and
    the reconstruction loop.

  Each loop is proved to follow the model step by step, so `FindPath` returns
  exactly `Answer`. Its contract also states the result without the model:
  `SearchCorrect.Meets` says which error is thrown when, and that a returned
  route is a walk whose reported totals are its own and whose ranked total is
  least among all walks.
- `route_optimizer.dfy` (module `RouteOptimizer`) is the application's dispatch.
- `traces.dfy` (module `Traces`) evaluates two searches on the fixed graph, one
  iteration at a time: `A` to `F` by distance and `A` to `J` by toll. Every
  intermediate state is written out in full. Each road that touches the
  dequeued city has a lemma taking the state before it to the state after it.
  Each run ends in the route the engine returns.
- `scenarios.dfy` (module `Scenarios`) states the exact answers of those two
  queries. It also gives lower bounds on every walk, which do not depend on the
  engine: a node potential that no road can outrun.

The model follows the code, including where a caller might expect otherwise:

- A query whose start is its destination does not yield a single-city route. The
  first dequeue pops the start, which is the destination, and ends the loop.
  `previous[start]` is never set, because that would need a candidate below 0. So
  the call fails with "no path" (`NoPathExactly`, `SameCityHasNoPath`).
- The graph is not validated: neither the engine nor anything in `graph-data.ts`
  checks it. The model states what the engine relies on as the precondition
  `WellFormed`:
  - every edge endpoint is a node;
  - no weight is negative;
  - no node is named by the empty string or by `__proto__`.

Other points where the model follows the code:

- There is no stale-entry check: a node dequeued again relaxes its edges again,
  to no effect.
- A node dequeued at `Infinity` relaxes nothing.
- Relaxation happens only on a strict `<`.

## Model

| member | source | states |
|---|---|---|
| Costs.Add | src/lib/dijkstra.ts:82 | `Infinity + w` stays `Infinity`, and a finite sum stays finite; adding a non-negative weight never lowers a cost |
| Queues.InsertAt | src/lib/dijkstra.ts:12-22 | if the first `k` items are not greater than the new item and item `k` is (or there is none), the new item is spliced in at `k` |
| Queues.InsertContents | src/lib/dijkstra.ts:8-23 | `enqueue` adds exactly the new item: the multiset of items gains it and the length grows by one |
| Queues.InsertMember | src/lib/dijkstra.ts:8-23 | after `enqueue` an item is present iff it was present before or is the new one |
| Queues.InsertSorted | src/lib/dijkstra.ts:8-23 | `enqueue` keeps the items in non-decreasing priority order |
| Queues.InsertPlacement | src/lib/dijkstra.ts:12-22 | in a sorted queue the new item lands after every item of equal or lower priority (FIFO on ties) and before every greater one, and the other items keep their relative order |
| Queues.FrontIsMinimal | src/lib/dijkstra.ts:25-27 | the front of a sorted queue has the least priority |
| Queues.PriorityQueue.constructor | src/lib/dijkstra.ts:6 | a new queue is empty and sorted |
| Queues.PriorityQueue.Enqueue | src/lib/dijkstra.ts:8-23 | the items become exactly `Insert(old items, new item)`, and sortedness is kept |
| Queues.PriorityQueue.Dequeue | src/lib/dijkstra.ts:25-27 | an empty queue yields nothing and stays empty; otherwise the front element is returned and the rest stays in order |
| GraphData.PredefinedNodes | src/lib/graph-data.ts:12 | the fixed node list is exactly `A` to `J`, each a single letter |
| GraphData.PredefinedDistinct | src/lib/graph-data.ts:12 | no city name occurs twice |
| GraphData.PredefinedEndpointsKnown | src/lib/graph-data.ts:13-35 | every road's endpoints are cities of the list |
| GraphData.PredefinedNoSelfLoops | src/lib/graph-data.ts:15-34 | no road joins a city to itself |
| GraphData.PredefinedNonNegative | src/lib/graph-data.ts:15-34 | every distance and every toll is non-negative |
| GraphData.PredefinedWellFormed | src/lib/graph-data.ts:11-36 | the fixed graph has nineteen roads and meets everything the engine needs |
| SearchInvariant.SeedTable | src/lib/dijkstra.ts:55-60 | after seeding, every node has an entry: cost 0 for the start and `Infinity` otherwise, carried metric 0, no link |
| SearchInvariant.SeedQueue | src/lib/dijkstra.ts:55-60 | after seeding, the queue is sorted and holds exactly every node at its initial cost |
| SearchInvariant.InitInv | src/lib/dijkstra.ts:48-60 | the seeded state satisfies the search invariant |
| SearchInvariant.RelaxUnchanged | src/lib/dijkstra.ts:81-89 | an edge that does not strictly improve its neighbour changes nothing |
| SearchInvariant.RelaxNoOp | src/lib/dijkstra.ts:81-89 | a pass over edges none of which improves anything leaves the state as it was |
| SearchInvariant.InfinityRelaxesNothing | src/lib/dijkstra.ts:82-83 | a node whose cost is `Infinity` improves no neighbour, and its whole pass changes nothing |
| SearchInvariant.TieKeepsPredecessor | src/lib/dijkstra.ts:83 | on a tie the neighbour keeps its earlier cost, link and carried metric, and nothing is queued |
| SearchInvariant.ImprovementUpdates | src/lib/dijkstra.ts:83-88 | a strict improvement sets the neighbour's cost, carried metric and link together and queues the neighbour at its new cost |
| SearchInvariant.RelaxFromKeeps | src/lib/dijkstra.ts:80-89 | relaxing all edges of the dequeued node preserves the search invariant |
| SearchInvariant.RelaxFromKeys | src/lib/dijkstra.ts:80-89 | relaxation never adds or removes entries and never changes which nodes are expanded |
| SearchInvariant.StepKeeps | src/lib/dijkstra.ts:63-89 | one iteration preserves the invariant and either dequeues the destination or decreases the termination measure |
| SearchInvariant.RunInv | src/lib/dijkstra.ts:63-90 | the invariant holds after any number of iterations |
| SearchInvariant.HaltedReached | src/lib/dijkstra.ts:63 | the queue never runs dry before the destination is dequeued |
| SearchInvariant.HaltedStays | src/lib/dijkstra.ts:63-90 | once the main loop has stopped, further iterations leave the search state as it is |
| SearchInvariant.RunProgress | src/lib/dijkstra.ts:63-89 | an iteration that does not stop the search decreases (unexpanded nodes, queue length) lexicographically |
| SearchInvariant.HaltsFrom | src/lib/dijkstra.ts:63-90 | from any iteration the loop stops after finitely many more |
| SearchInvariant.Halts | src/lib/dijkstra.ts:63-90 | the main loop stops, and it stops by dequeuing the destination |
| SearchCorrect.WalkBound | src/lib/dijkstra.ts:63-90 | once the destination is dequeued, its cost is at most the ranked weight of every walk from the start to it |
| SearchCorrect.ChainWalk | src/lib/dijkstra.ts:97-103 | following `previous` from a node with a finite cost spells a walk from the start whose ranked weight is the node's cost and whose other weight is its carried metric |
| SearchCorrect.NoLinkIff | src/lib/dijkstra.ts:93-95 | the destination lacks a link exactly when it is the start or its cost is `Infinity` |
| SearchCorrect.HaltedInv | src/lib/dijkstra.ts:63-90 | when the loop has stopped, the invariant holds and the destination was dequeued |
| SearchCorrect.PredecessorNotCostlier | src/lib/dijkstra.ts:82-86 | a node's predecessor never costs more than the node |
| SearchCorrect.AnswerStable | src/lib/dijkstra.ts:63-110 | the answer does not depend on which halted iteration count it is read at |
| SearchCorrect.NoPathExactly | src/lib/dijkstra.ts:93-95 | between two known nodes the only error is "no path", and it occurs exactly when start equals destination or no walk joins them |
| SearchCorrect.Outcomes | src/lib/dijkstra.ts:40-46 | an unknown start is reported first, then an unknown destination, then "no path"; each occurs exactly under its condition, and otherwise a route is returned |
| SearchCorrect.RouteIsWalk | src/lib/dijkstra.ts:97-109 | a returned path is a walk from start to destination, and its reported distance and toll are that walk's totals |
| SearchCorrect.RouteIsOptimal | src/lib/dijkstra.ts:105-109 | no walk between the two nodes has a smaller ranked total than the returned route |
| Dijkstra.LoopStep | src/lib/dijkstra.ts:63-68 | one loop iteration: the front node has an entry; the destination is popped and stops the loop; any other node is expanded and its edges relaxed, with progress |
| Dijkstra.Seeding | src/lib/dijkstra.ts:55-60 | the seeding loop leaves the queue and the three records exactly as the model's seeded state |
| Dijkstra.RelaxEdge | src/lib/dijkstra.ts:81-88 | handling one edge updates the queue and the three records exactly as the model's relaxation of that edge |
| Dijkstra.RelaxEdges | src/lib/dijkstra.ts:70-89 | the pass over the edges of the dequeued node updates queue and records exactly as the model's full relaxation |
| Dijkstra.Reconstruct | src/lib/dijkstra.ts:97-103 | the reconstruction loop terminates and builds exactly the `previous` chain from the destination back to a node without a link |
| SearchCorrect.AnswerMeets | src/lib/dijkstra.ts:35-110 | the answer after the loop stops meets the engine's promise: "unknown start" exactly when the start is unknown, "unknown end" exactly when only the destination is unknown, "no path" exactly when both are known and they coincide or no walk joins them, and otherwise a route along a walk from start to destination whose reported distance and toll are that walk's totals and whose ranked total no walk undercuts |
| Dijkstra.FindPath | src/lib/dijkstra.ts:35-110 | the engine's result meets that promise (`Meets`): each error exactly under its condition, otherwise an optimal route whose reported totals are its walk's; it is also the model's answer after the iterations the loop ran |
| Dijkstra.FindShortestPath | src/lib/dijkstra.ts:35-110 | `findShortestPath` meets the promise ranking by distance: a returned route has the least total distance of any walk, and its toll is that route's total toll |
| Dijkstra.FindCheapestPath | src/lib/dijkstra.ts:113-188 | `findCheapestPath` meets the promise ranking by toll: a returned route has the least total toll of any walk, and its distance is that route's total distance |
| RouteOptimizer.ComputeRoute | src/components/RouteOptimizer.tsx:53-55 | on the fixed graph, the result meets the promise ranking by toll when the switch is on and by distance when it is off |
| Traces.SeedFromA | src/lib/dijkstra.ts:55-60 | seeding from `A` on the fixed graph queues `A` at 0 in front of the nine other cities at `Infinity`, in node order, each with carried metric 0 and no link |
| Traces.RunAF | src/lib/dijkstra.ts:35-110 | returns an iteration count at which the search from `A` to `F` by distance has stopped, and the answer there is the path `A`, `B`, `F` with distance 13 and toll 2.5 |
| Traces.RunAJ | src/lib/dijkstra.ts:113-188 | returns an iteration count at which the search from `A` to `J` by toll has stopped, and the answer there is the path `A`, `C`, `F`, `J` with distance 27 and toll 2 |
| Scenarios.NoShorterWalkAToF | src/lib/graph-data.ts:15-34 | no walk from `A` to `F` on the fixed graph has a total distance below 13 |
| Scenarios.NoCheaperWalkAToJ | src/lib/graph-data.ts:15-34 | no walk from `A` to `J` on the fixed graph has a total toll below 2 |
| Scenarios.ShortestAToF | src/lib/dijkstra.ts:35-110 | `findShortestPath(predefinedGraph, "A", "F")` returns the path `A`, `B`, `F` with distance 13 and toll 2.5, whenever its loop has stopped. Of the two routes of distance 13, this is the one through `B`, because road `A`–`B` is relaxed first and the later tie through `C` does not replace it |
| Scenarios.CheapestAToJ | src/lib/dijkstra.ts:113-188 | `findCheapestPath(predefinedGraph, "A", "J")` returns the path `A`, `C`, `F`, `J` with toll 2 and distance 27, whenever its loop has stopped |
| Scenarios.SameCityHasNoPath | src/lib/dijkstra.ts:68 | on the fixed graph, asking for the route from a city to itself ends in "no path" under either policy |

## Left out

- The pages and forms, the toasts, `localStorage` persistence, routing and the canvas drawing of the graph are user interface with no computation of the engine.
- RouteOptimizer.ComputeRoute: takes the city names as given. The form upper-cases them, re-checks membership before the call, catches the thrown error and formats the totals with `toFixed`; none of that is modelled.
- Weights are exact reals, and `Infinity` is a separate cost value. JavaScript's floating-point rounding is not modelled. On the fixed graph every distance is an integer and every toll a multiple of 0.5, so the sums there are exact anyway.
- The `if (!current) continue` guard only matters for a node named by the empty string. `WellFormed` excludes such names, so the guard is not modelled.
- The graph is not validated by the source. The precondition `WellFormed` excludes, rather than reports, the inputs on which the source misbehaves; the model says nothing about them:
  - A negative weight: the two ends of a negative edge reachable from the start keep lowering each other's cost and re-queuing each other. The main loop (`src/lib/dijkstra.ts:63-90`) then never stops unless the destination is dequeued first. For example, nodes `A`, `B`, `C`, one edge `A`–`B` of weight −1, and the query `A` to `C`. The termination measure of `SearchInvariant.HaltsFrom` holds only under this precondition.
  - An edge endpoint that is not a node: the comparison against `undefined` at `src/lib/dijkstra.ts:83` is false, so the edge is silently ignored. A walk through such a node does not count, and the source's "no path" would no longer mean "unreachable".
- The three records are modelled as Dafny maps, while the source keeps them in plain JavaScript objects keyed by node name. On ordinary names the two agree, but not on `__proto__`. Writing that key sets the object's prototype instead of storing a value. So `distances["__proto__"]` reads back `Object.prototype`, and `previous["__proto__"]` reads back `undefined` once `previous` has a null prototype. With `__proto__` as the destination, the reconstruction loop at `src/lib/dijkstra.ts:100-103` never reaches `null`. `WellFormed` excludes the name, and the model does not capture that behaviour.
- Errors are the three values of `RouteError`. The message texts are not modelled.
- The `filter`/`map` that builds the neighbour list and the `forEach` over it are fused into one pass over the edge indices. The pass visits the same edges in the same order.
- Dijkstra.FindPath: the exact route (which of several optimal routes, decided by edge order and the strict comparison) is stated only as the model's answer after the ghost count `steps` of main-loop iterations, not as a closed function of the inputs. `SearchInvariant.Halts` shows that such a count always exists.
- The two evaluated searches are the only concrete queries whose exact answers are proved. Other pairs of cities are covered by the general guarantees only.
