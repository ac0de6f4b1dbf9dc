/**
 * What the search computes. Once it halts, the destination's entry is the
 * least ranked weight of any walk from the start; following `previous` back
 * from the destination spells such a walk, and the entry's carried metric
 * is that walk's other weight; and the destination has no link exactly when
 * it is the start itself or cannot be reached.
 */
module SearchCorrect {
  import opened Wrappers
  import opened Costs
  import opened Queues
  import opened GraphData
  import opened Search
  import opened SearchInvariant

  // ---------------------------------------------------------------------
  // No walk is cheaper than the destination's cost

  /** Every node of a walk from a known start is a known node. */
  lemma WalkNodesKnown(g: Graph, vs: seq<Node>, es: seq<nat>, start: Node)
    requires EndpointsKnown(g) && start in g.nodes && IsWalk(g, vs, es) && vs[0] == start
    ensures forall j :: 0 <= j < |vs| ==> vs[j] in g.nodes
  {
    forall j | 0 <= j < |vs| ensures vs[j] in g.nodes {
      if j > 0 {
        assert Joins(g.edges[es[j - 1]], vs[j - 1], vs[j]);
      }
    }
  }

  /** A relaxed edge bounds the far end's cost by the near end's cost plus the edge's weight. */
  lemma EdgeBound(g: Graph, p: Policy, table: map<Node, Entry>, u: Node, v: Node, i: nat)
    requires i < |g.edges| && EdgeRelaxed(g, p, table, u, i) && Joins(g.edges[i], u, v)
    requires u in table && v in table
    ensures AtMost(table[v].cost, Add(table[u].cost, Weight(g.edges[i], RankedMetric(p))))
  {
    assert Other(g.edges[i], u) == v;
  }

  /**
   * Once the destination has been dequeued, its cost is at most the ranked
   * weight of any walk from the start to it: the first node of the walk
   * that is not expanded costs at most the walk's weight up to it, and it
   * is either the destination or waits in the queue behind it.
   */
  lemma WalkBound(g: Graph, p: Policy, start: Node, end: Node, st: State, vs: seq<Node>, es: seq<nat>)
    requires Inv(g, p, start, end, st) && st.reached && WalkFromTo(g, vs, es, start, end)
    ensures ValidEdgeIndices(g, es)
    ensures AtMost(st.table[end].cost, Fin(WalkWeight(g, es, RankedMetric(p))))
  {
    var m := RankedMetric(p);
    WalkNodesKnown(g, vs, es, start);
    assert forall j :: 0 <= j < |vs| ==> vs[j] in st.table;
    var k := 0;
    assert es[..0] == [];
    while vs[k] in st.settled
      invariant 0 <= k < |vs|
      invariant AtMost(st.table[vs[k]].cost, Fin(WalkWeight(g, es[..k], m)))
      decreases |vs| - k
    {
      EdgeBound(g, p, st.table, vs[k], vs[k + 1], es[k]);
      WalkWeightSnoc(g, es[..k], es[k], m);
      assert es[..k] + [es[k]] == es[..k + 1];
      k := k + 1;
    }
    WalkWeightPrefix(g, es, k, m);
    if vs[k] != end {
      assert Item(vs[k], st.table[vs[k]].cost) in st.queue;
      FrontIsMinimal(st.queue);
    }
  }

  // ---------------------------------------------------------------------
  // The `previous` chain

  /** Position in expansion order; a node not expanded yet comes after all that are. */
  ghost function Rank(st: State, v: Node): nat {
    if v in st.settled then st.settled[v] else |st.settled|
  }

  /**
   * The nodes met by following `previous` from `v` until a node without a
   * link, in walk order: what the source's reconstruction loop builds by
   * prepending each node it visits.
   */
  ghost function Chain(g: Graph, p: Policy, start: Node, st: State, v: Node): seq<Node>
    requires Links(g, p, start, st) && RanksOk(st) && v in st.table
    decreases Rank(st, v)
  {
    match st.table[v].prev
    case None => [v]
    case Some(u) =>
      assert LinkOk(g, p, st, v);
      Chain(g, p, start, st, u) + [v]
  }

  /**
   * The chain from a node with a finite cost is a walk from the start along
   * the linked edges, whose ranked weight is the node's cost and whose other
   * weight is its carried metric; `es` are the walk's edge indices.
   */
  lemma {:induction false} ChainWalk(g: Graph, p: Policy, start: Node, end: Node, st: State, v: Node)
    returns (es: seq<nat>)
    requires Links(g, p, start, st) && RanksOk(st) && EndsOk(start, end, st)
    requires v in st.table && st.table[v].cost.Fin?
    ensures WalkFromTo(g, Chain(g, p, start, st, v), es, start, v) && ValidEdgeIndices(g, es)
    ensures st.table[v].cost == Fin(WalkWeight(g, es, RankedMetric(p)))
    ensures st.table[v].carried == WalkWeight(g, es, CarriedMetric(p))
    decreases Rank(st, v)
  {
    match st.table[v].prev
    case None =>
      es := [];
    case Some(u) =>
      assert LinkOk(g, p, st, v);
      var i := st.via[v];
      var head := ChainWalk(g, p, start, end, st, u);
      var chain := Chain(g, p, start, st, u);
      WalkSnoc(g, chain, head, i, v);
      WalkWeightSnoc(g, head, i, RankedMetric(p));
      WalkWeightSnoc(g, head, i, CarriedMetric(p));
      es := head + [i];
  }

  /** The link the source tests after the loop: the destination lacks one exactly when it is the start or its cost is `Infinity`. */
  lemma NoLinkIff(g: Graph, p: Policy, start: Node, end: Node, st: State)
    requires Inv(g, p, start, end, st)
    ensures st.table[end].prev.None? <==> (end == start || st.table[end].cost == Inf)
  {
    if st.table[end].prev.Some? {
      assert LinkOk(g, p, st, end);
    }
  }

  // ---------------------------------------------------------------------
  // The completed search

  /** A halted search has the invariant and has dequeued the destination. */
  lemma HaltedInv(g: Graph, p: Policy, start: Node, end: Node, k: nat)
    requires WellFormed(g) && start in g.nodes && end in g.nodes && Halted(Run(g, p, start, end, k))
    ensures Inv(g, p, start, end, Run(g, p, start, end, k)) && Run(g, p, start, end, k).reached
  {
    RunInv(g, p, start, end, k);
    HaltedReached(g, p, start, end, Run(g, p, start, end, k));
  }

  /**
   * Best costs never decrease along a link: after any number of iterations
   * a node's predecessor costs no more than the node itself.
   */
  lemma PredecessorNotCostlier(g: Graph, p: Policy, start: Node, end: Node, k: nat, v: Node)
    requires WellFormed(g) && start in g.nodes && end in g.nodes
    requires v in Run(g, p, start, end, k).table && Run(g, p, start, end, k).table[v].prev.Some?
    ensures var t := Run(g, p, start, end, k).table; var u := t[v].prev.value;
      u in t && t[u].cost.Fin? && t[v].cost.Fin? && t[u].cost.value <= t[v].cost.value
  {
    var s := Run(g, p, start, end, k);
    RunInv(g, p, start, end, k);
    assert LinkOk(g, p, s, v);
    assert Ranked(p, g.edges[s.via[v]]) >= 0.0;
  }

  /** The path check and reconstruction after the main loop. */
  ghost function Outcome(g: Graph, p: Policy, start: Node, end: Node, s: State): Result<Route, RouteError>
    requires Links(g, p, start, s) && RanksOk(s) && end in s.table
  {
    match s.table[end].prev
    case None => Err(NoPath)
    case Some(_) =>
      assert LinkOk(g, p, s, end);
      Ok(RouteOf(p, Chain(g, p, start, s, end), s.table[end].cost.value, s.table[end].carried))
  }

  /**
   * What the engine returns when its main loop stops after `k` iterations:
   * the two unknown-node errors in the order the source checks them, then
   * the outcome of the search.
   */
  ghost function Answer(g: Graph, p: Policy, start: Node, end: Node, k: nat): Result<Route, RouteError>
    requires WellFormed(g)
    requires start in g.nodes && end in g.nodes ==> Halted(Run(g, p, start, end, k))
  {
    if start !in g.nodes then Err(UnknownStart)
    else if end !in g.nodes then Err(UnknownEnd)
    else
      HaltedInv(g, p, start, end, k);
      Outcome(g, p, start, end, Run(g, p, start, end, k))
  }

  /** Any two iteration counts at which the search has halted give the same answer. */
  lemma AnswerStable(g: Graph, p: Policy, start: Node, end: Node, k: nat, j: nat)
    requires WellFormed(g)
    requires start in g.nodes && end in g.nodes ==> Halted(Run(g, p, start, end, k)) && Halted(Run(g, p, start, end, j))
    ensures Answer(g, p, start, end, k) == Answer(g, p, start, end, j)
  {
    if start in g.nodes && end in g.nodes {
      if k <= j {
        HaltedStays(g, p, start, end, k, j);
      } else {
        HaltedStays(g, p, start, end, j, k);
      }
    }
  }

  // ---------------------------------------------------------------------
  // The engine's guarantees

  /**
   * Between two known nodes the engine fails only with "no path", and does
   * so exactly when the start is the destination or no walk joins them.
   */
  lemma NoPathExactly(g: Graph, p: Policy, start: Node, end: Node, k: nat)
    requires WellFormed(g) && start in g.nodes && end in g.nodes && Halted(Run(g, p, start, end, k))
    ensures Answer(g, p, start, end, k).Ok? || Answer(g, p, start, end, k) == Err(NoPath)
    ensures Answer(g, p, start, end, k) == Err(NoPath) <==> (start == end || !Reachable(g, start, end))
  {
    var s := Run(g, p, start, end, k);
    HaltedInv(g, p, start, end, k);
    NoLinkIff(g, p, start, end, s);
    if start != end {
      if Reachable(g, start, end) {
        var vs, es :| WalkFromTo(g, vs, es, start, end);
        WalkBound(g, p, start, end, s, vs, es);
      } else if s.table[end].cost.Fin? {
        var es := ChainWalk(g, p, start, end, s, end);
      }
    }
  }

  /**
   * The four outcomes and exactly when each occurs: an unknown start is
   * reported first, then an unknown destination, then "no path"; otherwise
   * a route is returned.
   */
  lemma Outcomes(g: Graph, p: Policy, start: Node, end: Node, k: nat)
    requires WellFormed(g) && (start in g.nodes && end in g.nodes ==> Halted(Run(g, p, start, end, k)))
    ensures Answer(g, p, start, end, k) == Err(UnknownStart) <==> start !in g.nodes
    ensures Answer(g, p, start, end, k) == Err(UnknownEnd) <==> start in g.nodes && end !in g.nodes
    ensures Answer(g, p, start, end, k) == Err(NoPath) <==>
      start in g.nodes && end in g.nodes && (start == end || !Reachable(g, start, end))
    ensures Answer(g, p, start, end, k).Ok? <==>
      start in g.nodes && end in g.nodes && start != end && Reachable(g, start, end)
  {
    if start in g.nodes && end in g.nodes {
      NoPathExactly(g, p, start, end, k);
    }
  }

  /**
   * A returned route is a walk from the start to the destination, and its
   * distance and toll are that walk's total distance and total toll.
   */
  lemma RouteIsWalk(g: Graph, p: Policy, start: Node, end: Node, k: nat) returns (es: seq<nat>)
    requires WellFormed(g) && (start in g.nodes && end in g.nodes ==> Halted(Run(g, p, start, end, k)))
    requires Answer(g, p, start, end, k).Ok?
    ensures var r := Answer(g, p, start, end, k).value;
      && WalkFromTo(g, r.path, es, start, end) && ValidEdgeIndices(g, es)
      && r.distance == WalkWeight(g, es, Distance)
      && r.toll == WalkWeight(g, es, Toll)
  {
    var s := Run(g, p, start, end, k);
    HaltedInv(g, p, start, end, k);
    assert LinkOk(g, p, s, end);
    es := ChainWalk(g, p, start, end, s, end);
  }

  /** No walk from the start to the destination has a smaller ranked weight than the returned route. */
  lemma RouteIsOptimal(g: Graph, p: Policy, start: Node, end: Node, k: nat, vs: seq<Node>, es: seq<nat>)
    requires WellFormed(g) && (start in g.nodes && end in g.nodes ==> Halted(Run(g, p, start, end, k)))
    requires Answer(g, p, start, end, k).Ok? && WalkFromTo(g, vs, es, start, end)
    ensures ValidEdgeIndices(g, es)
    ensures RouteRanked(p, Answer(g, p, start, end, k).value) <= WalkWeight(g, es, RankedMetric(p))
  {
    var s := Run(g, p, start, end, k);
    HaltedInv(g, p, start, end, k);
    assert LinkOk(g, p, s, end);
    WalkBound(g, p, start, end, s, vs, es);
  }

  // ---------------------------------------------------------------------
  // The engine's promise, stated without the iteration count

  /**
   * `r` runs from `start` to `end` along a walk whose total distance and
   * total toll it reports, and no walk between the two has a smaller
   * ranked weight.
   */
  ghost predicate OptimalRoute(g: Graph, p: Policy, start: Node, end: Node, r: Route) {
    && (exists es :: WalkFromTo(g, r.path, es, start, end) && ValidEdgeIndices(g, es)
         && r.distance == WalkWeight(g, es, Distance) && r.toll == WalkWeight(g, es, Toll))
    && forall vs, es :: WalkFromTo(g, vs, es, start, end) && ValidEdgeIndices(g, es) ==>
         RouteRanked(p, r) <= WalkWeight(g, es, RankedMetric(p))
  }

  /** Each error exactly when it applies, and otherwise an optimal route. */
  ghost predicate Meets(g: Graph, p: Policy, start: Node, end: Node, r: Result<Route, RouteError>) {
    && (r == Err(UnknownStart) <==> start !in g.nodes)
    && (r == Err(UnknownEnd) <==> start in g.nodes && end !in g.nodes)
    && (r == Err(NoPath) <==> start in g.nodes && end in g.nodes && (start == end || !Reachable(g, start, end)))
    && (r.Ok? <==> start in g.nodes && end in g.nodes && start != end && Reachable(g, start, end))
    && (r.Ok? ==> OptimalRoute(g, p, start, end, r.value))
  }

  /** The engine's answer, once the search has halted, meets the promise. */
  lemma AnswerMeets(g: Graph, p: Policy, start: Node, end: Node, k: nat)
    requires WellFormed(g) && (start in g.nodes && end in g.nodes ==> Halted(Run(g, p, start, end, k)))
    ensures Meets(g, p, start, end, Answer(g, p, start, end, k))
  {
    Outcomes(g, p, start, end, k);
    var a := Answer(g, p, start, end, k);
    if a.Ok? {
      var es := RouteIsWalk(g, p, start, end, k);
      forall vs, ws | WalkFromTo(g, vs, ws, start, end) && ValidEdgeIndices(g, ws)
        ensures RouteRanked(p, a.value) <= WalkWeight(g, ws, RankedMetric(p))
      {
        RouteIsOptimal(g, p, start, end, k, vs, ws);
      }
    }
  }
}
