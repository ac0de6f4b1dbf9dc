/**
 * The route engine as the source writes it: three records keyed by node
 * name (the ranked cost, the carried metric and `previous`), a priority
 * queue, a seeding loop, the main loop with its inner pass over the edge
 * list, and the reconstruction loop. Each state the engine passes through is
 * tied to the search model, so the guarantees proved there are the engine's.
 */
module Dijkstra {
  import opened Wrappers
  import opened Costs
  import opened Queues
  import opened GraphData
  import opened Search
  import opened SearchInvariant
  import opened SearchCorrect

  /** The engine's three records hold, node by node, exactly the model's entries. */
  ghost predicate Agrees(table: map<Node, Entry>, ranked: map<Node, Cost>, carried: map<Node, real>, previous: map<Node, Option<Node>>) {
    && ranked.Keys == table.Keys && carried.Keys == table.Keys && previous.Keys == table.Keys
    && forall v :: v in table ==> table[v] == Entry(ranked[v], carried[v], previous[v])
  }

  /** Writing one node's three records writes its entry. */
  lemma AgreesSet(table: map<Node, Entry>, ranked: map<Node, Cost>, carried: map<Node, real>, previous: map<Node, Option<Node>>, v: Node, e: Entry)
    requires Agrees(table, ranked, carried, previous)
    ensures Agrees(table[v := e], ranked[v := e.cost], carried[v := e.carried], previous[v := e.prev])
  {
  }

  /** The node at the front of the queue has an entry. */
  lemma FrontKnown(g: Graph, p: Policy, start: Node, end: Node, k: nat)
    requires WellFormed(g) && start in g.nodes && end in g.nodes && !Halted(Run(g, p, start, end, k))
    ensures Run(g, p, start, end, k).queue[0].element in Run(g, p, start, end, k).table
  {
    RunInv(g, p, start, end, k);
    var s := Run(g, p, start, end, k);
    assert s.queue[0] in s.queue;
  }

  /** The two shapes of a step: popping the destination, or entering a node and relaxing its edges. */
  lemma StepShape(g: Graph, p: Policy, end: Node, s: State)
    requires !Halted(s)
    ensures var u := s.queue[0].element; var t := Step(g, p, end, s);
      && Entered(Popped(s), u).queue == s.queue[1..] && Entered(Popped(s), u).table == s.table
      && (u == end ==> t.reached && t.table == s.table)
      && (u != end ==> t == RelaxFrom(g, p, u, Entered(Popped(s), u), 0) && !t.reached)
  {
    var u := s.queue[0].element;
    if u != end {
      RelaxFromKeys(g, p, u, Entered(Popped(s), u), 0);
    }
  }

  /**
   * One iteration of the main loop seen from the model: the front node has
   * an entry; dequeuing the destination only pops it and stops; any other
   * node is entered and its edges relaxed, which makes progress and does not
   * stop the search.
   */
  lemma LoopStep(g: Graph, p: Policy, start: Node, end: Node, k: nat)
    requires WellFormed(g) && start in g.nodes && end in g.nodes && !Halted(Run(g, p, start, end, k))
    ensures var s := Run(g, p, start, end, k); var t := Run(g, p, start, end, k + 1); var u := s.queue[0].element;
      && u in s.table
      && Entered(Popped(s), u).queue == s.queue[1..] && Entered(Popped(s), u).table == s.table
      && (u == end ==> t.reached && t.table == s.table)
      && (u != end ==> t == RelaxFrom(g, p, u, Entered(Popped(s), u), 0) && !t.reached)
      && (u != end ==> Unexpanded(t) < Unexpanded(s) || (Unexpanded(t) == Unexpanded(s) && |t.queue| < |s.queue|))
  {
    FrontKnown(g, p, start, end, k);
    RunNext(g, p, start, end, k);
    StepShape(g, p, end, Run(g, p, start, end, k));
    RunProgress(g, p, start, end, k);
  }

  /** The seeding loop: every node at its initial cost, carried 0 and no link, queued in node-list order. */
  method Seeding(g: Graph, start: Node) returns (ranked: map<Node, Cost>, carried: map<Node, real>, previous: map<Node, Option<Node>>, pq: PriorityQueue<Node>)
    ensures fresh(pq)
    ensures pq.items == Init(g, start).queue && Agrees(Init(g, start).table, ranked, carried, previous)
  {
    ranked, carried, previous := map[], map[], map[];
    pq := new PriorityQueue<Node>();
    for i := 0 to |g.nodes|
      invariant pq.items == Seed(g, start, i).queue
      invariant Agrees(Seed(g, start, i).table, ranked, carried, previous)
    {
      var node := g.nodes[i];
      AgreesSet(Seed(g, start, i).table, ranked, carried, previous, node, Entry(InitialCost(node, start), 0.0, None));
      ranked := ranked[node := if node == start then Fin(0.0) else Inf];
      carried := carried[node := 0.0];
      previous := previous[node := None];
      pq.Enqueue(node, ranked[node]);
    }
  }

  /** One edge seen from `u`, as the source's `neighbors.forEach` handles it. */
  method RelaxEdge(g: Graph, p: Policy, u: Node, i: nat, ranked: map<Node, Cost>, carried: map<Node, real>, previous: map<Node, Option<Node>>, pq: PriorityQueue<Node>, ghost cur: State)
    returns (ranked': map<Node, Cost>, carried': map<Node, real>, previous': map<Node, Option<Node>>)
    requires i < |g.edges| && u in cur.table
    requires pq.items == cur.queue && Agrees(cur.table, ranked, carried, previous)
    modifies pq
    ensures pq.items == Relax(g, p, u, cur, i).queue && Agrees(Relax(g, p, u, cur, i).table, ranked', carried', previous')
  {
    ranked', carried', previous' := ranked, carried, previous;
    var e := g.edges[i];
    if e.a == u || e.b == u {
      var v := if e.a == u then e.b else e.a;
      var candidate := Add(ranked[u], Weight(e, RankedMetric(p)));
      if v in ranked && Less(candidate, ranked[v]) {
        assert Improves(g, p, u, cur, i);
        ImprovementUpdates(g, p, u, cur, i);
        AgreesSet(cur.table, ranked, carried, previous, v, Entry(candidate, carried[u] + Weight(e, CarriedMetric(p)), Some(u)));
        ranked' := ranked[v := candidate];
        previous' := previous[v := Some(u)];
        carried' := carried[v := carried[u] + Weight(e, CarriedMetric(p))];
        pq.Enqueue(v, candidate);
      } else {
        RelaxUnchanged(g, p, u, cur, i);
      }
    } else {
      RelaxUnchanged(g, p, u, cur, i);
    }
  }

  /** The inner pass: every edge at `u`, in edge-list order. */
  method RelaxEdges(g: Graph, p: Policy, u: Node, ranked: map<Node, Cost>, carried: map<Node, real>, previous: map<Node, Option<Node>>, pq: PriorityQueue<Node>, ghost s0: State)
    returns (ranked': map<Node, Cost>, carried': map<Node, real>, previous': map<Node, Option<Node>>)
    requires u in s0.table
    requires pq.items == s0.queue && Agrees(s0.table, ranked, carried, previous)
    modifies pq
    ensures pq.items == RelaxFrom(g, p, u, s0, 0).queue && Agrees(RelaxFrom(g, p, u, s0, 0).table, ranked', carried', previous')
  {
    ranked', carried', previous' := ranked, carried, previous;
    ghost var cur := s0;
    for i := 0 to |g.edges|
      invariant RelaxFrom(g, p, u, cur, i) == RelaxFrom(g, p, u, s0, 0)
      invariant pq.items == cur.queue && Agrees(cur.table, ranked', carried', previous')
      invariant u in cur.table
    {
      ranked', carried', previous' := RelaxEdge(g, p, u, i, ranked', carried', previous', pq, cur);
      cur := Relax(g, p, u, cur, i);
    }
  }

  /** The reconstruction loop: follow `previous` from the destination, prepending each node. */
  method Reconstruct(g: Graph, p: Policy, start: Node, end: Node, previous: map<Node, Option<Node>>, ghost st: State) returns (path: seq<Node>)
    requires Links(g, p, start, st) && RanksOk(st) && end in st.table
    requires previous.Keys == st.table.Keys && forall v :: v in st.table ==> previous[v] == st.table[v].prev
    ensures path == Chain(g, p, start, st, end)
  {
    path := [];
    var node: Option<Node> := Some(end);
    while node.Some?
      invariant node.Some? ==> node.value in st.table && Chain(g, p, start, st, node.value) + path == Chain(g, p, start, st, end)
      invariant node.None? ==> path == Chain(g, p, start, st, end)
      decreases if node.Some? then Rank(st, node.value) + 1 else 0
    {
      var v := node.value;
      if previous[v].Some? {
        var u := previous[v].value;
        assert LinkOk(g, p, st, v);
        assert Chain(g, p, start, st, v) == Chain(g, p, start, st, u) + [v];
        assert Chain(g, p, start, st, u) + ([v] + path) == Chain(g, p, start, st, v) + path;
      }
      path := [v] + path;
      node := previous[v];
    }
  }

  /**
   * The source's `findShortestPath` (ranking by distance) and
   * `findCheapestPath` (ranking by toll), which differ only in which weight
   * ranks. `steps` counts the iterations of the main loop; the result is the
   * model's answer after that many, and the search has halted by then.
   */
  method FindPath(g: Graph, p: Policy, start: Node, end: Node) returns (r: Result<Route, RouteError>, ghost steps: nat)
    requires WellFormed(g)
    ensures start in g.nodes && end in g.nodes ==> Halted(Run(g, p, start, end, steps))
    ensures r == Answer(g, p, start, end, steps)
    ensures Meets(g, p, start, end, r)
  {
    if start !in g.nodes {
      AnswerMeets(g, p, start, end, 0);
      return Err(UnknownStart), 0;
    }
    if end !in g.nodes {
      AnswerMeets(g, p, start, end, 0);
      return Err(UnknownEnd), 0;
    }

    var ranked, carried, previous, pq := Seeding(g, start);
    SeedTable(g, start, |g.nodes|);
    ghost var k: nat := 0;
    ghost var st := Run(g, p, start, end, 0);
    while !pq.IsEmpty()
      invariant st == Run(g, p, start, end, k) && !st.reached
      invariant pq.items == st.queue && Agrees(st.table, ranked, carried, previous)
      decreases Unexpanded(st), |pq.items|
    {
      LoopStep(g, p, start, end, k);
      var current := pq.Dequeue();
      var u := current.value;
      if u == end {
        st, k := Run(g, p, start, end, k + 1), k + 1;
        break;
      }
      ranked, carried, previous := RelaxEdges(g, p, u, ranked, carried, previous, pq, Entered(Popped(st), u));
      st, k := Run(g, p, start, end, k + 1), k + 1;
    }

    HaltedInv(g, p, start, end, k);
    AnswerMeets(g, p, start, end, k);
    if previous[end].None? {
      return Err(NoPath), k;
    }
    assert LinkOk(g, p, st, end);
    var path := Reconstruct(g, p, start, end, previous, st);
    r := Ok(RouteOf(p, path, ranked[end].value, carried[end]));
    steps := k;
  }

  method FindShortestPath(g: Graph, start: Node, end: Node) returns (r: Result<Route, RouteError>, ghost steps: nat)
    requires WellFormed(g)
    ensures start in g.nodes && end in g.nodes ==> Halted(Run(g, ByDistance, start, end, steps))
    ensures r == Answer(g, ByDistance, start, end, steps)
    ensures Meets(g, ByDistance, start, end, r)
  {
    r, steps := FindPath(g, ByDistance, start, end);
  }

  method FindCheapestPath(g: Graph, start: Node, end: Node) returns (r: Result<Route, RouteError>, ghost steps: nat)
    requires WellFormed(g)
    ensures start in g.nodes && end in g.nodes ==> Halted(Run(g, ByToll, start, end, steps))
    ensures r == Answer(g, ByToll, start, end, steps)
    ensures Meets(g, ByToll, start, end, r)
  {
    r, steps := FindPath(g, ByToll, start, end);
  }
}
