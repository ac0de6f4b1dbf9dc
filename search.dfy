/**
 * The route engine's search, stated as pure functions over a search state:
 * seeding the queue, one iteration of the main loop (dequeue, stop at the
 * destination, relax every incident edge in edge-list order), and `Run`,
 * the state after a number of iterations. The imperative engine in module
 * Dijkstra is proved to compute exactly these states.
 */
module Search {
  import opened Wrappers
  import opened Costs
  import opened Queues
  import opened GraphData

  /** Which weight drives the queue; the other one is carried along the chosen path. */
  datatype Policy = ByDistance | ByToll

  function RankedMetric(p: Policy): Metric {
    if p == ByDistance then Distance else Toll
  }

  function CarriedMetric(p: Policy): Metric {
    if p == ByDistance then Toll else Distance
  }

  function Ranked(p: Policy, e: Edge): real {
    Weight(e, RankedMetric(p))
  }

  function Carried(p: Policy, e: Edge): real {
    Weight(e, CarriedMetric(p))
  }

  datatype Route = Route(path: seq<Node>, distance: real, toll: real)

  /** The returned record: the ranked and the carried total go to `distance` and `toll` as the policy says. */
  function RouteOf(p: Policy, path: seq<Node>, ranked: real, carried: real): Route {
    if p == ByDistance then Route(path, ranked, carried) else Route(path, carried, ranked)
  }

  /** The total a route was ranked by. */
  function RouteRanked(p: Policy, r: Route): real {
    if p == ByDistance then r.distance else r.toll
  }

  /** The three errors the engine throws: unknown start, unknown end, no path. */
  datatype RouteError = UnknownStart | UnknownEnd | NoPath

  /**
   * What the engine records for one node: its best ranked cost (`distances`
   * or `tolls` in the source), the carried metric (the other of the two
   * records) and `previous`.
   */
  datatype Entry = Entry(cost: Cost, carried: real, prev: Option<Node>)

  /**
   * The engine's working state: the queue and the per-node entries.
   * `settled` and `via` are proof bookkeeping: the order in which nodes were
   * first expanded, and the index of the edge behind each `previous` link.
   * `reached` records that the destination was dequeued.
   */
  datatype State = State(
    queue: seq<Item<Node>>,
    table: map<Node, Entry>,
    settled: map<Node, nat>,
    via: map<Node, nat>,
    reached: bool)

  predicate Touches(e: Edge, u: Node) {
    e.a == u || e.b == u
  }

  /** The neighbour the source reads off an edge at `u`: `edge[0] === u ? edge[1] : edge[0]`. */
  function Other(e: Edge, u: Node): Node {
    if e.a == u then e.b else e.a
  }

  /** The start is seeded at cost 0, every other node at `Infinity`. */
  function InitialCost(n: Node, start: Node): Cost {
    if n == start then Fin(0.0) else Inf
  }

  /** The state after the seeding loop has visited the first `i` nodes. */
  ghost function Seed(g: Graph, start: Node, i: nat): State
    requires i <= |g.nodes|
  {
    if i == 0 then State([], map[], map[], map[], false)
    else
      var s := Seed(g, start, i - 1);
      var n := g.nodes[i - 1];
      s.(table := s.table[n := Entry(InitialCost(n, start), 0.0, None)],
         queue := Insert(s.queue, Item(n, InitialCost(n, start))))
  }

  ghost function Init(g: Graph, start: Node): State {
    Seed(g, start, |g.nodes|)
  }

  /**
   * Relaxing edge `i` from the dequeued node `u`: only a strict improvement
   * updates anything, and then cost, carried metric and link change together
   * and the neighbour is queued at its new cost.
   */
  ghost function Relax(g: Graph, p: Policy, u: Node, st: State, i: nat): State
    requires i < |g.edges|
  {
    var e := g.edges[i];
    var v := Other(e, u);
    if Touches(e, u) && u in st.table && v in st.table then
      var candidate := Add(st.table[u].cost, Ranked(p, e));
      if Less(candidate, st.table[v].cost) then
        st.(table := st.table[v := Entry(candidate, st.table[u].carried + Carried(p, e), Some(u))],
            queue := Insert(st.queue, Item(v, candidate)),
            via := st.via[v := i])
      else st
    else st
  }

  /** Relaxing edges `i`, `i + 1`, ... in edge-list order. */
  ghost function RelaxFrom(g: Graph, p: Policy, u: Node, st: State, i: nat): State
    requires i <= |g.edges|
    decreases |g.edges| - i
  {
    if i == |g.edges| then st else RelaxFrom(g, p, u, Relax(g, p, u, st, i), i + 1)
  }

  predicate Halted(st: State) {
    st.reached || st.queue == []
  }

  /** Records a dequeued node as expanded, unless it was expanded before. */
  ghost function Entered(st: State, u: Node): State {
    if u in st.settled then st else st.(settled := st.settled[u := |st.settled|])
  }

  /** One iteration of the main loop. */
  ghost function Step(g: Graph, p: Policy, end: Node, st: State): State
    requires st.queue != []
  {
    var u := st.queue[0].element;
    var popped := st.(queue := st.queue[1..]);
    if u == end then popped.(reached := true)
    else RelaxFrom(g, p, u, Entered(popped, u), 0)
  }

  /** The state after `k` iterations; a halted state stays as it is. */
  ghost function Run(g: Graph, p: Policy, start: Node, end: Node, k: nat): State {
    if k == 0 then Init(g, start)
    else
      var s := Run(g, p, start, end, k - 1);
      if Halted(s) then s else Step(g, p, end, s)
  }

  // ---------------------------------------------------------------------
  // The search invariant, one concern per predicate

  /** Every node has an entry. */
  ghost predicate KeysOk(g: Graph, st: State) {
    forall i :: 0 <= i < |g.nodes| ==> g.nodes[i] in st.table
  }

  /** The queue is sorted and no entry is cheaper than its node's best cost. */
  ghost predicate QueueOk(st: State) {
    && Sorted(st.queue)
    && forall it :: it in st.queue ==> it.element in st.table && AtMost(st.table[it.element].cost, it.priority)
  }

  /** A node not yet expanded waits in the queue at its best cost. */
  ghost predicate Pending(end: Node, st: State) {
    forall v :: v in st.table && v !in st.settled && !(st.reached && v == end) ==> Item(v, st.table[v].cost) in st.queue
  }

  /** Expanded nodes cost no more than the front of the queue. */
  ghost predicate SettledFirst(st: State) {
    st.queue != [] ==> forall u :: u in st.settled && u in st.table ==> AtMost(st.table[u].cost, st.queue[0].priority)
  }

  /** Once the destination is dequeued, nothing left in the queue is cheaper. */
  ghost predicate ReachedFirst(end: Node, st: State) {
    st.reached ==> end in st.table && (st.queue != [] ==> AtMost(st.table[end].cost, st.queue[0].priority))
  }

  /** Edge `i` offers no improvement from `u`. */
  ghost predicate EdgeRelaxed(g: Graph, p: Policy, table: map<Node, Entry>, u: Node, i: nat)
    requires i < |g.edges|
  {
    var e := g.edges[i];
    Touches(e, u) && u in table && Other(e, u) in table ==>
      AtMost(table[Other(e, u)].cost, Add(table[u].cost, Ranked(p, e)))
  }

  /** Every edge of an expanded node is relaxed, except edges `i..` of `u`. */
  ghost predicate RelaxedBut(g: Graph, p: Policy, st: State, u: Node, i: nat) {
    forall w, j :: w in st.settled && 0 <= j < |g.edges| && (w == u ==> j < i) ==> EdgeRelaxed(g, p, st.table, w, j)
  }

  ghost predicate Relaxed(g: Graph, p: Policy, st: State) {
    forall w, j :: w in st.settled && 0 <= j < |g.edges| ==> EdgeRelaxed(g, p, st.table, w, j)
  }

  /** The start keeps cost 0, carried 0 and no link; the destination is never expanded. */
  ghost predicate EndsOk(start: Node, end: Node, st: State) {
    && start in st.table && st.table[start] == Entry(Fin(0.0), 0.0, None)
    && end !in st.settled
  }

  ghost predicate CostsOk(st: State) {
    forall v :: v in st.table ==> NonNegative(st.table[v].cost)
  }

  /** The link `previous[v]` names an expanded node and an edge that account for `v`'s entry exactly. */
  ghost predicate LinkOk(g: Graph, p: Policy, st: State, v: Node)
    requires v in st.table && st.table[v].prev.Some?
  {
    var u := st.table[v].prev.value;
    && u in st.settled && u in st.table && v in st.via && st.via[v] < |g.edges|
    && var e := g.edges[st.via[v]];
    && Joins(e, u, v)
    && st.table[v].cost.Fin?
    && st.table[v].cost == Add(st.table[u].cost, Ranked(p, e))
    && st.table[v].carried == st.table[u].carried + Carried(p, e)
    && (v in st.settled ==> st.settled[u] < st.settled[v])
  }

  /** Every link is sound, and a node without one is the start or still at `Infinity`. */
  ghost predicate Links(g: Graph, p: Policy, start: Node, st: State) {
    forall v {:trigger st.table[v].prev} :: v in st.table ==>
      if st.table[v].prev.Some? then LinkOk(g, p, st, v)
      else v == start || st.table[v].cost == Inf
  }

  ghost predicate RanksOk(st: State) {
    forall v :: v in st.settled ==> st.settled[v] < |st.settled|
  }

  /** Everything but the relaxation of expanded nodes. */
  ghost predicate Core(g: Graph, p: Policy, start: Node, end: Node, st: State) {
    && WellFormed(g) && start in g.nodes && end in g.nodes
    && KeysOk(g, st) && QueueOk(st) && Pending(end, st) && SettledFirst(st)
    && ReachedFirst(end, st) && EndsOk(start, end, st) && CostsOk(st)
    && Links(g, p, start, st) && RanksOk(st)
  }

  ghost predicate Inv(g: Graph, p: Policy, start: Node, end: Node, st: State) {
    Core(g, p, start, end, st) && Relaxed(g, p, st)
  }

  /** While `u`'s edges are relaxed: `u` is expanded and no expanded node costs more. */
  ghost predicate Relaxing(g: Graph, p: Policy, start: Node, end: Node, u: Node, st: State, i: nat) {
    && Core(g, p, start, end, st) && RelaxedBut(g, p, st, u, i)
    && !st.reached && u in st.settled && u in st.table
    && forall w :: w in st.settled && w in st.table ==> AtMost(st.table[w].cost, st.table[u].cost)
  }
}
