/**
 * Two searches on the fixed ten-city graph, evaluated iteration by
 * iteration: every intermediate state of the engine is written out in full
 * (queue, entries, expansion order, links), each edge that touches the
 * dequeued node gets a lemma relating the state before it to the state
 * after it, and each iteration chains those through the pass over the edge
 * list. The two runs end in the routes the engine returns.
 */
module Traces {
  import opened Wrappers
  import opened Costs
  import opened Queues
  import opened GraphData
  import opened Search
  import opened SearchInvariant
  import opened SearchCorrect

  /** A queue item at a finite priority. */
  function At(n: Node, c: real): Item<Node> {
    Item(n, Fin(c))
  }

  /** The start's seeded entry. */
  const Origin := Entry(Fin(0.0), 0.0, None)

  /** A node's seeded entry: `Infinity`, carried 0 and no link. */
  const Unseen := Entry(Inf, 0.0, None)

  /** The entry of a node reached at cost `c`, carrying `carried`, linked to `prev`. */
  function Seen(c: real, carried: real, prev: Node): Entry {
    Entry(Fin(c), carried, Some(prev))
  }

  /** The entries of the ten cities, in the order the seeding loop adds them. */
  function Entries(a: Entry, b: Entry, c: Entry, d: Entry, e: Entry,
                   f: Entry, g: Entry, h: Entry, i: Entry, j: Entry): map<Node, Entry> {
    map["A" := a, "B" := b, "C" := c, "D" := d, "E" := e, "F" := f, "G" := g, "H" := h, "I" := i, "J" := j]
  }

  /** The back of a queue seeded from `A`: the other nine cities at `Infinity`, in node order. */
  function Unreached(): seq<Item<Node>> {
    [Item("B", Inf), Item("C", Inf), Item("D", Inf), Item("E", Inf), Item("F", Inf),
     Item("G", Inf), Item("H", Inf), Item("I", Inf), Item("J", Inf)]
  }

  /** The seeded state of a search from `A`. */
  function FromA(): State {
    State([At("A", 0.0)] + Unreached(),
      Entries(Origin, Unseen, Unseen, Unseen, Unseen, Unseen, Unseen, Unseen, Unseen, Unseen),
      map[], map[], false)
  }

  /** Seeding from `A`: `A` at 0 in front of every other city at `Infinity`. */
  lemma SeedFromA()
    ensures Init(PredefinedGraph, "A") == FromA()
  {
    PredefinedNodes();
    SeedOver(PredefinedGraph);
  }

  /** Seeding a graph whose node list is the fixed one, from `A`. */
  lemma SeedOver(g: Graph)
    requires g.nodes == ["A", "B", "C", "D", "E", "F", "G", "H", "I", "J"]
    ensures Init(g, "A") == FromA()
  {
    SeedQueueOver(g);
    SeedTableOver(g);
    SeedTable(g, "A", |g.nodes|);
  }

  /** The seeding loop's queue: each further node is appended at `Infinity`. */
  lemma SeedQueueOver(g: Graph)
    requires g.nodes == ["A", "B", "C", "D", "E", "F", "G", "H", "I", "J"]
    ensures Seed(g, "A", 10).queue == FromA().queue
  {
    SeedUnfold(g, "A", 1);
    var i := 1;
    while i < |g.nodes|
      invariant 1 <= i <= |g.nodes|
      invariant Seed(g, "A", i).queue == [At("A", 0.0)] + Unreached()[..i - 1]
    {
      SeedUnfold(g, "A", i + 1);
      InsertInf(Seed(g, "A", i).queue, g.nodes[i]);
      assert Unreached()[..i] == Unreached()[..i - 1] + [Item(g.nodes[i], Inf)];
      i := i + 1;
    }
    assert Unreached()[..9] == Unreached();
  }

  /** The seeding loop's entries, one node at a time. */
  lemma SeedTableOver(g: Graph)
    requires g.nodes == ["A", "B", "C", "D", "E", "F", "G", "H", "I", "J"]
    ensures Seed(g, "A", 10).table == FromA().table
  {
    assert Seed(g, "A", 1).table == map["A" := Origin];
    assert Seed(g, "A", 2).table == map["A" := Origin, "B" := Unseen];
    assert Seed(g, "A", 3).table == map["A" := Origin, "B" := Unseen, "C" := Unseen];
    assert Seed(g, "A", 4).table == map["A" := Origin, "B" := Unseen, "C" := Unseen, "D" := Unseen];
    assert Seed(g, "A", 5).table == map["A" := Origin, "B" := Unseen, "C" := Unseen, "D" := Unseen, "E" := Unseen];
    assert Seed(g, "A", 6).table == map["A" := Origin, "B" := Unseen, "C" := Unseen, "D" := Unseen, "E" := Unseen, "F" := Unseen];
    assert Seed(g, "A", 7).table == map["A" := Origin, "B" := Unseen, "C" := Unseen, "D" := Unseen, "E" := Unseen, "F" := Unseen, "G" := Unseen];
    assert Seed(g, "A", 8).table == map["A" := Origin, "B" := Unseen, "C" := Unseen, "D" := Unseen, "E" := Unseen, "F" := Unseen, "G" := Unseen, "H" := Unseen];
    assert Seed(g, "A", 9).table == map["A" := Origin, "B" := Unseen, "C" := Unseen, "D" := Unseen, "E" := Unseen, "F" := Unseen, "G" := Unseen, "H" := Unseen, "I" := Unseen];
    assert Seed(g, "A", 10).table == map["A" := Origin, "B" := Unseen, "C" := Unseen, "D" := Unseen, "E" := Unseen, "F" := Unseen, "G" := Unseen, "H" := Unseen, "I" := Unseen, "J" := Unseen];
  }

  /** An item at `Infinity` goes to the back of the queue. */
  lemma {:induction false} InsertInf(q: seq<Item<Node>>, n: Node)
    ensures Insert(q, Item(n, Inf)) == q + [Item(n, Inf)]
  {
    if q != [] {
      InsertInf(q[1..], n);
      assert q == [q[0]] + q[1..];
    }
  }

  /** The indices of the fixed graph's edges that touch each city, in edge-list order. */
  function Incident(u: Node): seq<nat> {
    match u
    case "A" => [0, 1, 2]
    case "B" => [0, 3, 4, 15]
    case "C" => [1, 5, 6, 15]
    case "D" => [2, 7, 8]
    case "E" => [3, 9, 16]
    case "F" => [4, 5, 10, 11, 16]
    case "G" => [6, 7, 12, 17]
    case "H" => [8, 13, 17, 18]
    case "I" => [9, 10, 14, 18]
    case "J" => [11, 12, 13, 14]
    case _ => []
  }

  /** Every edge at `u` is listed in `Incident(u)`. */
  lemma Incidence(u: Node, m: nat)
    requires m < |PredefinedGraph.edges| && Touches(PredefinedGraph.edges[m], u)
    ensures m in Incident(u)
  {
  }

  /** Edges that do not touch the dequeued node change nothing. */
  lemma Skip(p: Policy, u: Node, st: State, i: nat, j: nat)
    requires i <= j <= |PredefinedGraph.edges|
    requires forall m :: i <= m < j ==> m !in Incident(u)
    ensures RelaxFrom(PredefinedGraph, p, u, st, i) == RelaxFrom(PredefinedGraph, p, u, st, j)
  {
    var m := j;
    while m > i
      invariant i <= m <= j
      invariant RelaxFrom(PredefinedGraph, p, u, st, m) == RelaxFrom(PredefinedGraph, p, u, st, j)
    {
      m := m - 1;
      if Touches(PredefinedGraph.edges[m], u) {
        Incidence(u, m);
      }
    }
  }

  /** Dequeuing `u`, which is not the destination, and expanding it. */
  lemma Pop(p: Policy, end: Node, s: State, u: Node, q: seq<Item<Node>>)
    requires s.queue != [] && s.queue[0].element == u && u != end && s.queue[1..] == q
    ensures Step(PredefinedGraph, p, end, s) == RelaxFrom(PredefinedGraph, p, u, Entered(s.(queue := q), u), 0)
  {
  }

  /** An iteration that dequeues the destination stops the search and leaves the entries alone. */
  lemma Finish(p: Policy, start: Node, end: Node, m: nat) returns (n: nat)
    requires Run(PredefinedGraph, p, start, end, m).queue != [] && !Run(PredefinedGraph, p, start, end, m).reached
    requires Run(PredefinedGraph, p, start, end, m).queue[0].element == end
    ensures Halted(Run(PredefinedGraph, p, start, end, n))
    ensures Run(PredefinedGraph, p, start, end, n).table == Run(PredefinedGraph, p, start, end, m).table
  {
    RunNext(PredefinedGraph, p, start, end, m);
    n := m + 1;
  }

  /**
   * In the entries `t`, the `previous` links lead from the last node of
   * `path` back along it to its first, which has no link, and the last node
   * is at cost `c`, carrying `carried`.
   */
  ghost predicate LinkedAlong(t: map<Node, Entry>, path: seq<Node>, c: real, carried: real) {
    && |path| >= 2
    && (forall i :: 0 <= i < |path| ==> path[i] in t)
    && t[path[0]].prev == None
    && (forall i :: 1 <= i < |path| ==> t[path[i]].prev == Some(path[i - 1]))
    && t[path[|path| - 1]].cost == Fin(c) && t[path[|path| - 1]].carried == carried
  }

  /** Following the links from the last node of `path` spells out `path`. */
  lemma ChainAlong(g: Graph, p: Policy, start: Node, st: State, path: seq<Node>, c: real, carried: real)
    requires Links(g, p, start, st) && RanksOk(st)
    requires LinkedAlong(st.table, path, c, carried)
    ensures Chain(g, p, start, st, path[|path| - 1]) == path
  {
    var i := 1;
    while i < |path|
      invariant 1 <= i <= |path| && Chain(g, p, start, st, path[i - 1]) == path[..i]
    {
      assert Chain(g, p, start, st, path[i]) == Chain(g, p, start, st, path[i - 1]) + [path[i]];
      assert path[..i + 1] == path[..i] + [path[i]];
      i := i + 1;
    }
    assert path[..|path|] == path;
  }

  /**
   * When the search has stopped and the links lead from `end` back along
   * `path` to the start, the engine returns `path` with the destination's
   * totals.
   */
  lemma AnswerAlong(g: Graph, p: Policy, start: Node, end: Node, n: nat, path: seq<Node>, c: real, carried: real)
    requires WellFormed(g) && start in g.nodes && end in g.nodes && Halted(Run(g, p, start, end, n))
    requires LinkedAlong(Run(g, p, start, end, n).table, path, c, carried)
    requires path[0] == start && path[|path| - 1] == end
    ensures Answer(g, p, start, end, n) == Ok(RouteOf(p, path, c, carried))
  {
    HaltedInv(g, p, start, end, n);
    ChainAlong(g, p, start, Run(g, p, start, end, n), path, c, carried);
  }

  /** From `A` to `F` by distance, iteration 1: `A` dequeued and expanded. */
  function AF1a(): State {
    State(Unreached(),
      Entries(Origin, Unseen, Unseen, Unseen, Unseen, Unseen, Unseen, Unseen, Unseen, Unseen),
      map["A" := 0], map[], false)
  }

  /** ... after edge 0 improves `B`. */
  function AF1b(): State {
    State([At("B", 5.0)] + Unreached(),
      Entries(Origin, Seen(5.0, 1.5, "A"), Unseen, Unseen, Unseen, Unseen, Unseen, Unseen, Unseen, Unseen),
      map["A" := 0], map["B" := 0], false)
  }

  /** ... after edge 1 improves `C`. */
  function AF1c(): State {
    State([At("B", 5.0), At("C", 10.0)] + Unreached(),
      Entries(Origin, Seen(5.0, 1.5, "A"), Seen(10.0, 0.5, "A"), Unseen, Unseen, Unseen, Unseen, Unseen, Unseen, Unseen),
      map["A" := 0], map["B" := 0, "C" := 1], false)
  }

  /** ... after edge 2 improves `D`. */
  function AF1d(): State {
    State([At("B", 5.0), At("C", 10.0), At("D", 15.0)] + Unreached(),
      Entries(Origin, Seen(5.0, 1.5, "A"), Seen(10.0, 0.5, "A"), Seen(15.0, 2.0, "A"), Unseen, Unseen, Unseen, Unseen, Unseen, Unseen),
      map["A" := 0], map["B" := 0, "C" := 1, "D" := 2], false)
  }

  /** Edge 0 improves `B` to 5.0. */
  lemma AF1Edge0()
    ensures RelaxFrom(PredefinedGraph, ByDistance, "A", AF1a(), 0) == RelaxFrom(PredefinedGraph, ByDistance, "A", AF1b(), 1)
  {
    InsertAt(AF1a().queue, At("B", 5.0), 0);
    assert Relax(PredefinedGraph, ByDistance, "A", AF1a(), 0) == AF1b();
  }

  /** Edge 1 improves `C` to 10.0. */
  lemma AF1Edge1()
    ensures RelaxFrom(PredefinedGraph, ByDistance, "A", AF1b(), 1) == RelaxFrom(PredefinedGraph, ByDistance, "A", AF1c(), 2)
  {
    InsertAt(AF1b().queue, At("C", 10.0), 1);
    assert Relax(PredefinedGraph, ByDistance, "A", AF1b(), 1) == AF1c();
  }

  /** Edge 2 improves `D` to 15.0; no other edge from index 2 up to 19 touches `A`. */
  lemma AF1Edge2()
    ensures RelaxFrom(PredefinedGraph, ByDistance, "A", AF1c(), 2) == RelaxFrom(PredefinedGraph, ByDistance, "A", AF1d(), 19)
  {
    InsertAt(AF1c().queue, At("D", 15.0), 2);
    assert Relax(PredefinedGraph, ByDistance, "A", AF1c(), 2) == AF1d();
    AF1Tail2();
  }

  /** No edge after index 2 and before 19 touches `A`. */
  lemma AF1Tail2()
    ensures RelaxFrom(PredefinedGraph, ByDistance, "A", AF1d(), 3) == RelaxFrom(PredefinedGraph, ByDistance, "A", AF1d(), 19)
  {
    Skip(ByDistance, "A", AF1d(), 3, 19);
  }

  /** From `A` to `F` by distance, iteration 1: the pass over the edge list from `A`; `B` improves to 5.0; `C` improves to 10.0; `D` improves to 15.0. */
  lemma AF1Pass()
    ensures RelaxFrom(PredefinedGraph, ByDistance, "A", AF1a(), 0) == AF1d()
  {
    AF1Edge0();
    AF1Edge1();
    AF1Edge2();
  }

  /** From `A` to `F` by distance, iteration 1: dequeuing `A` records it as expanded. */
  lemma AF1Enter()
    ensures Entered(FromA().(queue := AF1a().queue), "A") == AF1a()
  {
    assert "A" !in FromA().settled;
    assert |FromA().settled| == 0;
  }

  /** From `A` to `F` by distance, iteration 1: `A` is dequeued and expanded. */
  lemma AF1(s: State)
    requires s == FromA()
    ensures Step(PredefinedGraph, ByDistance, "F", s) == AF1d()
  {
    Pop(ByDistance, "F", s, "A", AF1a().queue);
    AF1Enter();
    AF1Pass();
  }

  /** From `A` to `F` by distance, iteration 2: `B` dequeued and expanded. */
  function AF2a(): State {
    State([At("C", 10.0), At("D", 15.0)] + Unreached(),
      Entries(Origin, Seen(5.0, 1.5, "A"), Seen(10.0, 0.5, "A"), Seen(15.0, 2.0, "A"), Unseen, Unseen, Unseen, Unseen, Unseen, Unseen),
      map["A" := 0, "B" := 1], map["B" := 0, "C" := 1, "D" := 2], false)
  }

  /** ... after edge 3 improves `E`. */
  function AF2b(): State {
    State([At("C", 10.0), At("D", 15.0), At("E", 17.0)] + Unreached(),
      Entries(Origin, Seen(5.0, 1.5, "A"), Seen(10.0, 0.5, "A"), Seen(15.0, 2.0, "A"), Seen(17.0, 4.0, "B"), Unseen, Unseen, Unseen, Unseen, Unseen),
      map["A" := 0, "B" := 1], map["B" := 0, "C" := 1, "D" := 2, "E" := 3], false)
  }

  /** ... after edge 4 improves `F`. */
  function AF2c(): State {
    State([At("C", 10.0), At("F", 13.0), At("D", 15.0), At("E", 17.0)] + Unreached(),
      Entries(Origin, Seen(5.0, 1.5, "A"), Seen(10.0, 0.5, "A"), Seen(15.0, 2.0, "A"), Seen(17.0, 4.0, "B"), Seen(13.0, 2.5, "B"), Unseen, Unseen, Unseen, Unseen),
      map["A" := 0, "B" := 1], map["B" := 0, "C" := 1, "D" := 2, "E" := 3, "F" := 4], false)
  }

  /** Edge 0 leaves `A` as it is; no other edge from index 0 up to 3 touches `B`. */
  lemma AF2Edge0()
    ensures RelaxFrom(PredefinedGraph, ByDistance, "B", AF2a(), 0) == RelaxFrom(PredefinedGraph, ByDistance, "B", AF2a(), 3)
  {
    RelaxUnchanged(PredefinedGraph, ByDistance, "B", AF2a(), 0);
    AF2Tail0();
  }

  /** No edge after index 0 and before 3 touches `B`. */
  lemma AF2Tail0()
    ensures RelaxFrom(PredefinedGraph, ByDistance, "B", AF2a(), 1) == RelaxFrom(PredefinedGraph, ByDistance, "B", AF2a(), 3)
  {
    Skip(ByDistance, "B", AF2a(), 1, 3);
  }

  /** Edge 3 improves `E` to 17.0. */
  lemma AF2Edge3()
    ensures RelaxFrom(PredefinedGraph, ByDistance, "B", AF2a(), 3) == RelaxFrom(PredefinedGraph, ByDistance, "B", AF2b(), 4)
  {
    InsertAt(AF2a().queue, At("E", 17.0), 2);
    assert Relax(PredefinedGraph, ByDistance, "B", AF2a(), 3) == AF2b();
  }

  /** Edge 4 improves `F` to 13.0; no other edge from index 4 up to 15 touches `B`. */
  lemma AF2Edge4()
    ensures RelaxFrom(PredefinedGraph, ByDistance, "B", AF2b(), 4) == RelaxFrom(PredefinedGraph, ByDistance, "B", AF2c(), 15)
  {
    InsertAt(AF2b().queue, At("F", 13.0), 1);
    assert Relax(PredefinedGraph, ByDistance, "B", AF2b(), 4) == AF2c();
    AF2Tail4();
  }

  /** No edge after index 4 and before 15 touches `B`. */
  lemma AF2Tail4()
    ensures RelaxFrom(PredefinedGraph, ByDistance, "B", AF2c(), 5) == RelaxFrom(PredefinedGraph, ByDistance, "B", AF2c(), 15)
  {
    Skip(ByDistance, "B", AF2c(), 5, 15);
  }

  /** Edge 15 leaves `C` as it is; no other edge from index 15 up to 19 touches `B`. */
  lemma AF2Edge15()
    ensures RelaxFrom(PredefinedGraph, ByDistance, "B", AF2c(), 15) == RelaxFrom(PredefinedGraph, ByDistance, "B", AF2c(), 19)
  {
    RelaxUnchanged(PredefinedGraph, ByDistance, "B", AF2c(), 15);
    AF2Tail15();
  }

  /** No edge after index 15 and before 19 touches `B`. */
  lemma AF2Tail15()
    ensures RelaxFrom(PredefinedGraph, ByDistance, "B", AF2c(), 16) == RelaxFrom(PredefinedGraph, ByDistance, "B", AF2c(), 19)
  {
    Skip(ByDistance, "B", AF2c(), 16, 19);
  }

  /** From `A` to `F` by distance, iteration 2: the pass over the edge list from `B`; `E` improves to 17.0; `F` improves to 13.0; `A`, `C` keep their entries. */
  lemma AF2Pass()
    ensures RelaxFrom(PredefinedGraph, ByDistance, "B", AF2a(), 0) == AF2c()
  {
    AF2Edge0();
    AF2Edge3();
    AF2Edge4();
    AF2Edge15();
  }

  /** From `A` to `F` by distance, iteration 2: dequeuing `B` records it as expanded. */
  lemma AF2Enter()
    ensures Entered(AF1d().(queue := AF2a().queue), "B") == AF2a()
  {
    assert "B" !in AF1d().settled;
    assert |AF1d().settled| == 1;
  }

  /** From `A` to `F` by distance, iteration 2: `B` is dequeued and expanded. */
  lemma AF2(s: State)
    requires s == AF1d()
    ensures Step(PredefinedGraph, ByDistance, "F", s) == AF2c()
  {
    Pop(ByDistance, "F", s, "B", AF2a().queue);
    AF2Enter();
    AF2Pass();
  }

  /** From `A` to `F` by distance, iteration 3: `C` dequeued and expanded. */
  function AF3a(): State {
    State([At("F", 13.0), At("D", 15.0), At("E", 17.0)] + Unreached(),
      Entries(Origin, Seen(5.0, 1.5, "A"), Seen(10.0, 0.5, "A"), Seen(15.0, 2.0, "A"), Seen(17.0, 4.0, "B"), Seen(13.0, 2.5, "B"), Unseen, Unseen, Unseen, Unseen),
      map["A" := 0, "B" := 1, "C" := 2], map["B" := 0, "C" := 1, "D" := 2, "E" := 3, "F" := 4], false)
  }

  /** ... after edge 6 improves `G`. */
  function AF3b(): State {
    State([At("F", 13.0), At("D", 15.0), At("E", 17.0), At("G", 21.0)] + Unreached(),
      Entries(Origin, Seen(5.0, 1.5, "A"), Seen(10.0, 0.5, "A"), Seen(15.0, 2.0, "A"), Seen(17.0, 4.0, "B"), Seen(13.0, 2.5, "B"), Seen(21.0, 2.0, "C"), Unseen, Unseen, Unseen),
      map["A" := 0, "B" := 1, "C" := 2], map["B" := 0, "C" := 1, "D" := 2, "E" := 3, "F" := 4, "G" := 6], false)
  }

  /** No edge before index 1 touches `C`. */
  lemma AF3Lead()
    ensures RelaxFrom(PredefinedGraph, ByDistance, "C", AF3a(), 0) == RelaxFrom(PredefinedGraph, ByDistance, "C", AF3a(), 1)
  {
    Skip(ByDistance, "C", AF3a(), 0, 1);
  }

  /** Edge 1 leaves `A` as it is; no other edge from index 1 up to 5 touches `C`. */
  lemma AF3Edge1()
    ensures RelaxFrom(PredefinedGraph, ByDistance, "C", AF3a(), 1) == RelaxFrom(PredefinedGraph, ByDistance, "C", AF3a(), 5)
  {
    RelaxUnchanged(PredefinedGraph, ByDistance, "C", AF3a(), 1);
    AF3Tail1();
  }

  /** No edge after index 1 and before 5 touches `C`. */
  lemma AF3Tail1()
    ensures RelaxFrom(PredefinedGraph, ByDistance, "C", AF3a(), 2) == RelaxFrom(PredefinedGraph, ByDistance, "C", AF3a(), 5)
  {
    Skip(ByDistance, "C", AF3a(), 2, 5);
  }

  /** Edge 5 leaves `F` as it is. */
  lemma AF3Edge5()
    ensures RelaxFrom(PredefinedGraph, ByDistance, "C", AF3a(), 5) == RelaxFrom(PredefinedGraph, ByDistance, "C", AF3a(), 6)
  {
    RelaxUnchanged(PredefinedGraph, ByDistance, "C", AF3a(), 5);
  }

  /** Edge 6 improves `G` to 21.0; no other edge from index 6 up to 15 touches `C`. */
  lemma AF3Edge6()
    ensures RelaxFrom(PredefinedGraph, ByDistance, "C", AF3a(), 6) == RelaxFrom(PredefinedGraph, ByDistance, "C", AF3b(), 15)
  {
    InsertAt(AF3a().queue, At("G", 21.0), 3);
    assert Relax(PredefinedGraph, ByDistance, "C", AF3a(), 6) == AF3b();
    AF3Tail6();
  }

  /** No edge after index 6 and before 15 touches `C`. */
  lemma AF3Tail6()
    ensures RelaxFrom(PredefinedGraph, ByDistance, "C", AF3b(), 7) == RelaxFrom(PredefinedGraph, ByDistance, "C", AF3b(), 15)
  {
    Skip(ByDistance, "C", AF3b(), 7, 15);
  }

  /** Edge 15 leaves `B` as it is; no other edge from index 15 up to 19 touches `C`. */
  lemma AF3Edge15()
    ensures RelaxFrom(PredefinedGraph, ByDistance, "C", AF3b(), 15) == RelaxFrom(PredefinedGraph, ByDistance, "C", AF3b(), 19)
  {
    RelaxUnchanged(PredefinedGraph, ByDistance, "C", AF3b(), 15);
    AF3Tail15();
  }

  /** No edge after index 15 and before 19 touches `C`. */
  lemma AF3Tail15()
    ensures RelaxFrom(PredefinedGraph, ByDistance, "C", AF3b(), 16) == RelaxFrom(PredefinedGraph, ByDistance, "C", AF3b(), 19)
  {
    Skip(ByDistance, "C", AF3b(), 16, 19);
  }

  /** From `A` to `F` by distance, iteration 3: the pass over the edge list from `C`; `G` improves to 21.0; `A`, `F`, `B` keep their entries. */
  lemma AF3Pass()
    ensures RelaxFrom(PredefinedGraph, ByDistance, "C", AF3a(), 0) == AF3b()
  {
    AF3Lead();
    AF3Edge1();
    AF3Edge5();
    AF3Edge6();
    AF3Edge15();
  }

  /** From `A` to `F` by distance, iteration 3: dequeuing `C` records it as expanded. */
  lemma AF3Enter()
    ensures Entered(AF2c().(queue := AF3a().queue), "C") == AF3a()
  {
    assert "C" !in AF2c().settled;
    assert |AF2c().settled| == 2;
  }

  /** From `A` to `F` by distance, iteration 3: `C` is dequeued and expanded. */
  lemma AF3(s: State)
    requires s == AF2c()
    ensures Step(PredefinedGraph, ByDistance, "F", s) == AF3b()
  {
    Pop(ByDistance, "F", s, "C", AF3a().queue);
    AF3Enter();
    AF3Pass();
  }

  /** From `A` to `J` by toll, iteration 1: `A` dequeued and expanded. */
  function AJ1a(): State {
    State(Unreached(),
      Entries(Origin, Unseen, Unseen, Unseen, Unseen, Unseen, Unseen, Unseen, Unseen, Unseen),
      map["A" := 0], map[], false)
  }

  /** ... after edge 0 improves `B`. */
  function AJ1b(): State {
    State([At("B", 1.5)] + Unreached(),
      Entries(Origin, Seen(1.5, 5.0, "A"), Unseen, Unseen, Unseen, Unseen, Unseen, Unseen, Unseen, Unseen),
      map["A" := 0], map["B" := 0], false)
  }

  /** ... after edge 1 improves `C`. */
  function AJ1c(): State {
    State([At("C", 0.5), At("B", 1.5)] + Unreached(),
      Entries(Origin, Seen(1.5, 5.0, "A"), Seen(0.5, 10.0, "A"), Unseen, Unseen, Unseen, Unseen, Unseen, Unseen, Unseen),
      map["A" := 0], map["B" := 0, "C" := 1], false)
  }

  /** ... after edge 2 improves `D`. */
  function AJ1d(): State {
    State([At("C", 0.5), At("B", 1.5), At("D", 2.0)] + Unreached(),
      Entries(Origin, Seen(1.5, 5.0, "A"), Seen(0.5, 10.0, "A"), Seen(2.0, 15.0, "A"), Unseen, Unseen, Unseen, Unseen, Unseen, Unseen),
      map["A" := 0], map["B" := 0, "C" := 1, "D" := 2], false)
  }

  /** Edge 0 improves `B` to 1.5. */
  lemma AJ1Edge0()
    ensures RelaxFrom(PredefinedGraph, ByToll, "A", AJ1a(), 0) == RelaxFrom(PredefinedGraph, ByToll, "A", AJ1b(), 1)
  {
    InsertAt(AJ1a().queue, At("B", 1.5), 0);
    assert Relax(PredefinedGraph, ByToll, "A", AJ1a(), 0) == AJ1b();
  }

  /** Edge 1 improves `C` to 0.5. */
  lemma AJ1Edge1()
    ensures RelaxFrom(PredefinedGraph, ByToll, "A", AJ1b(), 1) == RelaxFrom(PredefinedGraph, ByToll, "A", AJ1c(), 2)
  {
    InsertAt(AJ1b().queue, At("C", 0.5), 0);
    assert Relax(PredefinedGraph, ByToll, "A", AJ1b(), 1) == AJ1c();
  }

  /** Edge 2 improves `D` to 2.0; no other edge from index 2 up to 19 touches `A`. */
  lemma AJ1Edge2()
    ensures RelaxFrom(PredefinedGraph, ByToll, "A", AJ1c(), 2) == RelaxFrom(PredefinedGraph, ByToll, "A", AJ1d(), 19)
  {
    InsertAt(AJ1c().queue, At("D", 2.0), 2);
    assert Relax(PredefinedGraph, ByToll, "A", AJ1c(), 2) == AJ1d();
    AJ1Tail2();
  }

  /** No edge after index 2 and before 19 touches `A`. */
  lemma AJ1Tail2()
    ensures RelaxFrom(PredefinedGraph, ByToll, "A", AJ1d(), 3) == RelaxFrom(PredefinedGraph, ByToll, "A", AJ1d(), 19)
  {
    Skip(ByToll, "A", AJ1d(), 3, 19);
  }

  /** From `A` to `J` by toll, iteration 1: the pass over the edge list from `A`; `B` improves to 1.5; `C` improves to 0.5; `D` improves to 2.0. */
  lemma AJ1Pass()
    ensures RelaxFrom(PredefinedGraph, ByToll, "A", AJ1a(), 0) == AJ1d()
  {
    AJ1Edge0();
    AJ1Edge1();
    AJ1Edge2();
  }

  /** From `A` to `J` by toll, iteration 1: dequeuing `A` records it as expanded. */
  lemma AJ1Enter()
    ensures Entered(FromA().(queue := AJ1a().queue), "A") == AJ1a()
  {
    assert "A" !in FromA().settled;
    assert |FromA().settled| == 0;
  }

  /** From `A` to `J` by toll, iteration 1: `A` is dequeued and expanded. */
  lemma AJ1(s: State)
    requires s == FromA()
    ensures Step(PredefinedGraph, ByToll, "J", s) == AJ1d()
  {
    Pop(ByToll, "J", s, "A", AJ1a().queue);
    AJ1Enter();
    AJ1Pass();
  }

  /** From `A` to `J` by toll, iteration 2: `C` dequeued and expanded. */
  function AJ2a(): State {
    State([At("B", 1.5), At("D", 2.0)] + Unreached(),
      Entries(Origin, Seen(1.5, 5.0, "A"), Seen(0.5, 10.0, "A"), Seen(2.0, 15.0, "A"), Unseen, Unseen, Unseen, Unseen, Unseen, Unseen),
      map["A" := 0, "C" := 1], map["B" := 0, "C" := 1, "D" := 2], false)
  }

  /** ... after edge 5 improves `F`. */
  function AJ2b(): State {
    State([At("F", 0.5), At("B", 1.5), At("D", 2.0)] + Unreached(),
      Entries(Origin, Seen(1.5, 5.0, "A"), Seen(0.5, 10.0, "A"), Seen(2.0, 15.0, "A"), Unseen, Seen(0.5, 13.0, "C"), Unseen, Unseen, Unseen, Unseen),
      map["A" := 0, "C" := 1], map["B" := 0, "C" := 1, "D" := 2, "F" := 5], false)
  }

  /** ... after edge 6 improves `G`. */
  function AJ2c(): State {
    State([At("F", 0.5), At("B", 1.5), At("D", 2.0), At("G", 2.0)] + Unreached(),
      Entries(Origin, Seen(1.5, 5.0, "A"), Seen(0.5, 10.0, "A"), Seen(2.0, 15.0, "A"), Unseen, Seen(0.5, 13.0, "C"), Seen(2.0, 21.0, "C"), Unseen, Unseen, Unseen),
      map["A" := 0, "C" := 1], map["B" := 0, "C" := 1, "D" := 2, "F" := 5, "G" := 6], false)
  }

  /** No edge before index 1 touches `C`. */
  lemma AJ2Lead()
    ensures RelaxFrom(PredefinedGraph, ByToll, "C", AJ2a(), 0) == RelaxFrom(PredefinedGraph, ByToll, "C", AJ2a(), 1)
  {
    Skip(ByToll, "C", AJ2a(), 0, 1);
  }

  /** Edge 1 leaves `A` as it is; no other edge from index 1 up to 5 touches `C`. */
  lemma AJ2Edge1()
    ensures RelaxFrom(PredefinedGraph, ByToll, "C", AJ2a(), 1) == RelaxFrom(PredefinedGraph, ByToll, "C", AJ2a(), 5)
  {
    RelaxUnchanged(PredefinedGraph, ByToll, "C", AJ2a(), 1);
    AJ2Tail1();
  }

  /** No edge after index 1 and before 5 touches `C`. */
  lemma AJ2Tail1()
    ensures RelaxFrom(PredefinedGraph, ByToll, "C", AJ2a(), 2) == RelaxFrom(PredefinedGraph, ByToll, "C", AJ2a(), 5)
  {
    Skip(ByToll, "C", AJ2a(), 2, 5);
  }

  /** Edge 5 improves `F` to 0.5. */
  lemma AJ2Edge5()
    ensures RelaxFrom(PredefinedGraph, ByToll, "C", AJ2a(), 5) == RelaxFrom(PredefinedGraph, ByToll, "C", AJ2b(), 6)
  {
    InsertAt(AJ2a().queue, At("F", 0.5), 0);
    assert Relax(PredefinedGraph, ByToll, "C", AJ2a(), 5) == AJ2b();
  }

  /** Edge 6 improves `G` to 2.0; no other edge from index 6 up to 15 touches `C`. */
  lemma AJ2Edge6()
    ensures RelaxFrom(PredefinedGraph, ByToll, "C", AJ2b(), 6) == RelaxFrom(PredefinedGraph, ByToll, "C", AJ2c(), 15)
  {
    InsertAt(AJ2b().queue, At("G", 2.0), 3);
    assert Relax(PredefinedGraph, ByToll, "C", AJ2b(), 6) == AJ2c();
    AJ2Tail6();
  }

  /** No edge after index 6 and before 15 touches `C`. */
  lemma AJ2Tail6()
    ensures RelaxFrom(PredefinedGraph, ByToll, "C", AJ2c(), 7) == RelaxFrom(PredefinedGraph, ByToll, "C", AJ2c(), 15)
  {
    Skip(ByToll, "C", AJ2c(), 7, 15);
  }

  /** Edge 15 leaves `B` as it is; no other edge from index 15 up to 19 touches `C`. */
  lemma AJ2Edge15()
    ensures RelaxFrom(PredefinedGraph, ByToll, "C", AJ2c(), 15) == RelaxFrom(PredefinedGraph, ByToll, "C", AJ2c(), 19)
  {
    RelaxUnchanged(PredefinedGraph, ByToll, "C", AJ2c(), 15);
    AJ2Tail15();
  }

  /** No edge after index 15 and before 19 touches `C`. */
  lemma AJ2Tail15()
    ensures RelaxFrom(PredefinedGraph, ByToll, "C", AJ2c(), 16) == RelaxFrom(PredefinedGraph, ByToll, "C", AJ2c(), 19)
  {
    Skip(ByToll, "C", AJ2c(), 16, 19);
  }

  /** From `A` to `J` by toll, iteration 2: the pass over the edge list from `C`; `F` improves to 0.5; `G` improves to 2.0; `A`, `B` keep their entries. */
  lemma AJ2Pass()
    ensures RelaxFrom(PredefinedGraph, ByToll, "C", AJ2a(), 0) == AJ2c()
  {
    AJ2Lead();
    AJ2Edge1();
    AJ2Edge5();
    AJ2Edge6();
    AJ2Edge15();
  }

  /** From `A` to `J` by toll, iteration 2: dequeuing `C` records it as expanded. */
  lemma AJ2Enter()
    ensures Entered(AJ1d().(queue := AJ2a().queue), "C") == AJ2a()
  {
    assert "C" !in AJ1d().settled;
    assert |AJ1d().settled| == 1;
  }

  /** From `A` to `J` by toll, iteration 2: `C` is dequeued and expanded. */
  lemma AJ2(s: State)
    requires s == AJ1d()
    ensures Step(PredefinedGraph, ByToll, "J", s) == AJ2c()
  {
    Pop(ByToll, "J", s, "C", AJ2a().queue);
    AJ2Enter();
    AJ2Pass();
  }

  /** From `A` to `J` by toll, iteration 3: `F` dequeued and expanded. */
  function AJ3a(): State {
    State([At("B", 1.5), At("D", 2.0), At("G", 2.0)] + Unreached(),
      Entries(Origin, Seen(1.5, 5.0, "A"), Seen(0.5, 10.0, "A"), Seen(2.0, 15.0, "A"), Unseen, Seen(0.5, 13.0, "C"), Seen(2.0, 21.0, "C"), Unseen, Unseen, Unseen),
      map["A" := 0, "C" := 1, "F" := 2], map["B" := 0, "C" := 1, "D" := 2, "F" := 5, "G" := 6], false)
  }

  /** ... after edge 10 improves `I`. */
  function AJ3b(): State {
    State([At("B", 1.5), At("D", 2.0), At("G", 2.0), At("I", 3.0)] + Unreached(),
      Entries(Origin, Seen(1.5, 5.0, "A"), Seen(0.5, 10.0, "A"), Seen(2.0, 15.0, "A"), Unseen, Seen(0.5, 13.0, "C"), Seen(2.0, 21.0, "C"), Unseen, Seen(3.0, 29.0, "F"), Unseen),
      map["A" := 0, "C" := 1, "F" := 2], map["B" := 0, "C" := 1, "D" := 2, "F" := 5, "G" := 6, "I" := 10], false)
  }

  /** ... after edge 11 improves `J`. */
  function AJ3c(): State {
    State([At("B", 1.5), At("D", 2.0), At("G", 2.0), At("J", 2.0), At("I", 3.0)] + Unreached(),
      Entries(Origin, Seen(1.5, 5.0, "A"), Seen(0.5, 10.0, "A"), Seen(2.0, 15.0, "A"), Unseen, Seen(0.5, 13.0, "C"), Seen(2.0, 21.0, "C"), Unseen, Seen(3.0, 29.0, "F"), Seen(2.0, 27.0, "F")),
      map["A" := 0, "C" := 1, "F" := 2], map["B" := 0, "C" := 1, "D" := 2, "F" := 5, "G" := 6, "I" := 10, "J" := 11], false)
  }

  /** ... after edge 16 improves `E`. */
  function AJ3d(): State {
    State([At("E", 1.0), At("B", 1.5), At("D", 2.0), At("G", 2.0), At("J", 2.0), At("I", 3.0)] + Unreached(),
      Entries(Origin, Seen(1.5, 5.0, "A"), Seen(0.5, 10.0, "A"), Seen(2.0, 15.0, "A"), Seen(1.0, 15.0, "F"), Seen(0.5, 13.0, "C"), Seen(2.0, 21.0, "C"), Unseen, Seen(3.0, 29.0, "F"), Seen(2.0, 27.0, "F")),
      map["A" := 0, "C" := 1, "F" := 2], map["B" := 0, "C" := 1, "D" := 2, "F" := 5, "G" := 6, "I" := 10, "J" := 11, "E" := 16], false)
  }

  /** No edge before index 4 touches `F`. */
  lemma AJ3Lead()
    ensures RelaxFrom(PredefinedGraph, ByToll, "F", AJ3a(), 0) == RelaxFrom(PredefinedGraph, ByToll, "F", AJ3a(), 4)
  {
    Skip(ByToll, "F", AJ3a(), 0, 4);
  }

  /** Edge 4 leaves `B` as it is. */
  lemma AJ3Edge4()
    ensures RelaxFrom(PredefinedGraph, ByToll, "F", AJ3a(), 4) == RelaxFrom(PredefinedGraph, ByToll, "F", AJ3a(), 5)
  {
    RelaxUnchanged(PredefinedGraph, ByToll, "F", AJ3a(), 4);
  }

  /** Edge 5 leaves `C` as it is; no other edge from index 5 up to 10 touches `F`. */
  lemma AJ3Edge5()
    ensures RelaxFrom(PredefinedGraph, ByToll, "F", AJ3a(), 5) == RelaxFrom(PredefinedGraph, ByToll, "F", AJ3a(), 10)
  {
    RelaxUnchanged(PredefinedGraph, ByToll, "F", AJ3a(), 5);
    AJ3Tail5();
  }

  /** No edge after index 5 and before 10 touches `F`. */
  lemma AJ3Tail5()
    ensures RelaxFrom(PredefinedGraph, ByToll, "F", AJ3a(), 6) == RelaxFrom(PredefinedGraph, ByToll, "F", AJ3a(), 10)
  {
    Skip(ByToll, "F", AJ3a(), 6, 10);
  }

  /** Edge 10 improves `I` to 3.0. */
  lemma AJ3Edge10()
    ensures RelaxFrom(PredefinedGraph, ByToll, "F", AJ3a(), 10) == RelaxFrom(PredefinedGraph, ByToll, "F", AJ3b(), 11)
  {
    InsertAt(AJ3a().queue, At("I", 3.0), 3);
    assert Relax(PredefinedGraph, ByToll, "F", AJ3a(), 10) == AJ3b();
  }

  /** Edge 11 improves `J` to 2.0; no other edge from index 11 up to 16 touches `F`. */
  lemma AJ3Edge11()
    ensures RelaxFrom(PredefinedGraph, ByToll, "F", AJ3b(), 11) == RelaxFrom(PredefinedGraph, ByToll, "F", AJ3c(), 16)
  {
    InsertAt(AJ3b().queue, At("J", 2.0), 3);
    assert Relax(PredefinedGraph, ByToll, "F", AJ3b(), 11) == AJ3c();
    AJ3Tail11();
  }

  /** No edge after index 11 and before 16 touches `F`. */
  lemma AJ3Tail11()
    ensures RelaxFrom(PredefinedGraph, ByToll, "F", AJ3c(), 12) == RelaxFrom(PredefinedGraph, ByToll, "F", AJ3c(), 16)
  {
    Skip(ByToll, "F", AJ3c(), 12, 16);
  }

  /** Edge 16 improves `E` to 1.0; no other edge from index 16 up to 19 touches `F`. */
  lemma AJ3Edge16()
    ensures RelaxFrom(PredefinedGraph, ByToll, "F", AJ3c(), 16) == RelaxFrom(PredefinedGraph, ByToll, "F", AJ3d(), 19)
  {
    InsertAt(AJ3c().queue, At("E", 1.0), 0);
    assert Relax(PredefinedGraph, ByToll, "F", AJ3c(), 16) == AJ3d();
    AJ3Tail16();
  }

  /** No edge after index 16 and before 19 touches `F`. */
  lemma AJ3Tail16()
    ensures RelaxFrom(PredefinedGraph, ByToll, "F", AJ3d(), 17) == RelaxFrom(PredefinedGraph, ByToll, "F", AJ3d(), 19)
  {
    Skip(ByToll, "F", AJ3d(), 17, 19);
  }

  /** From `A` to `J` by toll, iteration 3: the pass over the edge list from `F`; `I` improves to 3.0; `J` improves to 2.0; `E` improves to 1.0; `B`, `C` keep their entries. */
  lemma AJ3Pass()
    ensures RelaxFrom(PredefinedGraph, ByToll, "F", AJ3a(), 0) == AJ3d()
  {
    AJ3Lead();
    AJ3Edge4();
    AJ3Edge5();
    AJ3Edge10();
    AJ3Edge11();
    AJ3Edge16();
  }

  /** From `A` to `J` by toll, iteration 3: dequeuing `F` records it as expanded. */
  lemma AJ3Enter()
    ensures Entered(AJ2c().(queue := AJ3a().queue), "F") == AJ3a()
  {
    assert "F" !in AJ2c().settled;
    assert |AJ2c().settled| == 2;
  }

  /** From `A` to `J` by toll, iteration 3: `F` is dequeued and expanded. */
  lemma AJ3(s: State)
    requires s == AJ2c()
    ensures Step(PredefinedGraph, ByToll, "J", s) == AJ3d()
  {
    Pop(ByToll, "J", s, "F", AJ3a().queue);
    AJ3Enter();
    AJ3Pass();
  }

  /** From `A` to `J` by toll, iteration 4: `E` dequeued and expanded. */
  function AJ4a(): State {
    State([At("B", 1.5), At("D", 2.0), At("G", 2.0), At("J", 2.0), At("I", 3.0)] + Unreached(),
      Entries(Origin, Seen(1.5, 5.0, "A"), Seen(0.5, 10.0, "A"), Seen(2.0, 15.0, "A"), Seen(1.0, 15.0, "F"), Seen(0.5, 13.0, "C"), Seen(2.0, 21.0, "C"), Unseen, Seen(3.0, 29.0, "F"), Seen(2.0, 27.0, "F")),
      map["A" := 0, "C" := 1, "F" := 2, "E" := 3], map["B" := 0, "C" := 1, "D" := 2, "F" := 5, "G" := 6, "I" := 10, "J" := 11, "E" := 16], false)
  }

  /** No edge before index 3 touches `E`. */
  lemma AJ4Lead()
    ensures RelaxFrom(PredefinedGraph, ByToll, "E", AJ4a(), 0) == RelaxFrom(PredefinedGraph, ByToll, "E", AJ4a(), 3)
  {
    Skip(ByToll, "E", AJ4a(), 0, 3);
  }

  /** Edge 3 leaves `B` as it is; no other edge from index 3 up to 9 touches `E`. */
  lemma AJ4Edge3()
    ensures RelaxFrom(PredefinedGraph, ByToll, "E", AJ4a(), 3) == RelaxFrom(PredefinedGraph, ByToll, "E", AJ4a(), 9)
  {
    RelaxUnchanged(PredefinedGraph, ByToll, "E", AJ4a(), 3);
    AJ4Tail3();
  }

  /** No edge after index 3 and before 9 touches `E`. */
  lemma AJ4Tail3()
    ensures RelaxFrom(PredefinedGraph, ByToll, "E", AJ4a(), 4) == RelaxFrom(PredefinedGraph, ByToll, "E", AJ4a(), 9)
  {
    Skip(ByToll, "E", AJ4a(), 4, 9);
  }

  /** Edge 9 leaves `I` as it is; no other edge from index 9 up to 16 touches `E`. */
  lemma AJ4Edge9()
    ensures RelaxFrom(PredefinedGraph, ByToll, "E", AJ4a(), 9) == RelaxFrom(PredefinedGraph, ByToll, "E", AJ4a(), 16)
  {
    RelaxUnchanged(PredefinedGraph, ByToll, "E", AJ4a(), 9);
    AJ4Tail9();
  }

  /** No edge after index 9 and before 16 touches `E`. */
  lemma AJ4Tail9()
    ensures RelaxFrom(PredefinedGraph, ByToll, "E", AJ4a(), 10) == RelaxFrom(PredefinedGraph, ByToll, "E", AJ4a(), 16)
  {
    Skip(ByToll, "E", AJ4a(), 10, 16);
  }

  /** Edge 16 leaves `F` as it is; no other edge from index 16 up to 19 touches `E`. */
  lemma AJ4Edge16()
    ensures RelaxFrom(PredefinedGraph, ByToll, "E", AJ4a(), 16) == RelaxFrom(PredefinedGraph, ByToll, "E", AJ4a(), 19)
  {
    RelaxUnchanged(PredefinedGraph, ByToll, "E", AJ4a(), 16);
    AJ4Tail16();
  }

  /** No edge after index 16 and before 19 touches `E`. */
  lemma AJ4Tail16()
    ensures RelaxFrom(PredefinedGraph, ByToll, "E", AJ4a(), 17) == RelaxFrom(PredefinedGraph, ByToll, "E", AJ4a(), 19)
  {
    Skip(ByToll, "E", AJ4a(), 17, 19);
  }

  /** From `A` to `J` by toll, iteration 4: the pass over the edge list from `E`; no neighbour improves; `B`, `I`, `F` keep their entries. */
  lemma AJ4Pass()
    ensures RelaxFrom(PredefinedGraph, ByToll, "E", AJ4a(), 0) == AJ4a()
  {
    AJ4Lead();
    AJ4Edge3();
    AJ4Edge9();
    AJ4Edge16();
  }

  /** From `A` to `J` by toll, iteration 4: dequeuing `E` records it as expanded. */
  lemma AJ4Enter()
    ensures Entered(AJ3d().(queue := AJ4a().queue), "E") == AJ4a()
  {
    assert "E" !in AJ3d().settled;
    assert |AJ3d().settled| == 3;
  }

  /** From `A` to `J` by toll, iteration 4: `E` is dequeued and expanded. */
  lemma AJ4(s: State)
    requires s == AJ3d()
    ensures Step(PredefinedGraph, ByToll, "J", s) == AJ4a()
  {
    Pop(ByToll, "J", s, "E", AJ4a().queue);
    AJ4Enter();
    AJ4Pass();
  }

  /** From `A` to `J` by toll, iteration 5: `B` dequeued and expanded. */
  function AJ5a(): State {
    State([At("D", 2.0), At("G", 2.0), At("J", 2.0), At("I", 3.0)] + Unreached(),
      Entries(Origin, Seen(1.5, 5.0, "A"), Seen(0.5, 10.0, "A"), Seen(2.0, 15.0, "A"), Seen(1.0, 15.0, "F"), Seen(0.5, 13.0, "C"), Seen(2.0, 21.0, "C"), Unseen, Seen(3.0, 29.0, "F"), Seen(2.0, 27.0, "F")),
      map["A" := 0, "C" := 1, "F" := 2, "E" := 3, "B" := 4], map["B" := 0, "C" := 1, "D" := 2, "F" := 5, "G" := 6, "I" := 10, "J" := 11, "E" := 16], false)
  }

  /** Edge 0 leaves `A` as it is; no other edge from index 0 up to 3 touches `B`. */
  lemma AJ5Edge0()
    ensures RelaxFrom(PredefinedGraph, ByToll, "B", AJ5a(), 0) == RelaxFrom(PredefinedGraph, ByToll, "B", AJ5a(), 3)
  {
    RelaxUnchanged(PredefinedGraph, ByToll, "B", AJ5a(), 0);
    AJ5Tail0();
  }

  /** No edge after index 0 and before 3 touches `B`. */
  lemma AJ5Tail0()
    ensures RelaxFrom(PredefinedGraph, ByToll, "B", AJ5a(), 1) == RelaxFrom(PredefinedGraph, ByToll, "B", AJ5a(), 3)
  {
    Skip(ByToll, "B", AJ5a(), 1, 3);
  }

  /** Edge 3 leaves `E` as it is. */
  lemma AJ5Edge3()
    ensures RelaxFrom(PredefinedGraph, ByToll, "B", AJ5a(), 3) == RelaxFrom(PredefinedGraph, ByToll, "B", AJ5a(), 4)
  {
    RelaxUnchanged(PredefinedGraph, ByToll, "B", AJ5a(), 3);
  }

  /** Edge 4 leaves `F` as it is; no other edge from index 4 up to 15 touches `B`. */
  lemma AJ5Edge4()
    ensures RelaxFrom(PredefinedGraph, ByToll, "B", AJ5a(), 4) == RelaxFrom(PredefinedGraph, ByToll, "B", AJ5a(), 15)
  {
    RelaxUnchanged(PredefinedGraph, ByToll, "B", AJ5a(), 4);
    AJ5Tail4();
  }

  /** No edge after index 4 and before 15 touches `B`. */
  lemma AJ5Tail4()
    ensures RelaxFrom(PredefinedGraph, ByToll, "B", AJ5a(), 5) == RelaxFrom(PredefinedGraph, ByToll, "B", AJ5a(), 15)
  {
    Skip(ByToll, "B", AJ5a(), 5, 15);
  }

  /** Edge 15 leaves `C` as it is; no other edge from index 15 up to 19 touches `B`. */
  lemma AJ5Edge15()
    ensures RelaxFrom(PredefinedGraph, ByToll, "B", AJ5a(), 15) == RelaxFrom(PredefinedGraph, ByToll, "B", AJ5a(), 19)
  {
    RelaxUnchanged(PredefinedGraph, ByToll, "B", AJ5a(), 15);
    AJ5Tail15();
  }

  /** No edge after index 15 and before 19 touches `B`. */
  lemma AJ5Tail15()
    ensures RelaxFrom(PredefinedGraph, ByToll, "B", AJ5a(), 16) == RelaxFrom(PredefinedGraph, ByToll, "B", AJ5a(), 19)
  {
    Skip(ByToll, "B", AJ5a(), 16, 19);
  }

  /** From `A` to `J` by toll, iteration 5: the pass over the edge list from `B`; no neighbour improves; `A`, `E`, `F`, `C` keep their entries. */
  lemma AJ5Pass()
    ensures RelaxFrom(PredefinedGraph, ByToll, "B", AJ5a(), 0) == AJ5a()
  {
    AJ5Edge0();
    AJ5Edge3();
    AJ5Edge4();
    AJ5Edge15();
  }

  /** From `A` to `J` by toll, iteration 5: dequeuing `B` records it as expanded. */
  lemma AJ5Enter()
    ensures Entered(AJ4a().(queue := AJ5a().queue), "B") == AJ5a()
  {
    assert "B" !in AJ4a().settled;
    assert |AJ4a().settled| == 4;
  }

  /** From `A` to `J` by toll, iteration 5: `B` is dequeued and expanded. */
  lemma AJ5(s: State)
    requires s == AJ4a()
    ensures Step(PredefinedGraph, ByToll, "J", s) == AJ5a()
  {
    Pop(ByToll, "J", s, "B", AJ5a().queue);
    AJ5Enter();
    AJ5Pass();
  }

  /** From `A` to `J` by toll, iteration 6: `D` dequeued and expanded. */
  function AJ6a(): State {
    State([At("G", 2.0), At("J", 2.0), At("I", 3.0)] + Unreached(),
      Entries(Origin, Seen(1.5, 5.0, "A"), Seen(0.5, 10.0, "A"), Seen(2.0, 15.0, "A"), Seen(1.0, 15.0, "F"), Seen(0.5, 13.0, "C"), Seen(2.0, 21.0, "C"), Unseen, Seen(3.0, 29.0, "F"), Seen(2.0, 27.0, "F")),
      map["A" := 0, "C" := 1, "F" := 2, "E" := 3, "B" := 4, "D" := 5], map["B" := 0, "C" := 1, "D" := 2, "F" := 5, "G" := 6, "I" := 10, "J" := 11, "E" := 16], false)
  }

  /** ... after edge 8 improves `H`. */
  function AJ6b(): State {
    State([At("G", 2.0), At("J", 2.0), At("H", 2.5), At("I", 3.0)] + Unreached(),
      Entries(Origin, Seen(1.5, 5.0, "A"), Seen(0.5, 10.0, "A"), Seen(2.0, 15.0, "A"), Seen(1.0, 15.0, "F"), Seen(0.5, 13.0, "C"), Seen(2.0, 21.0, "C"), Seen(2.5, 24.0, "D"), Seen(3.0, 29.0, "F"), Seen(2.0, 27.0, "F")),
      map["A" := 0, "C" := 1, "F" := 2, "E" := 3, "B" := 4, "D" := 5], map["B" := 0, "C" := 1, "D" := 2, "F" := 5, "G" := 6, "I" := 10, "J" := 11, "E" := 16, "H" := 8], false)
  }

  /** No edge before index 2 touches `D`. */
  lemma AJ6Lead()
    ensures RelaxFrom(PredefinedGraph, ByToll, "D", AJ6a(), 0) == RelaxFrom(PredefinedGraph, ByToll, "D", AJ6a(), 2)
  {
    Skip(ByToll, "D", AJ6a(), 0, 2);
  }

  /** Edge 2 leaves `A` as it is; no other edge from index 2 up to 7 touches `D`. */
  lemma AJ6Edge2()
    ensures RelaxFrom(PredefinedGraph, ByToll, "D", AJ6a(), 2) == RelaxFrom(PredefinedGraph, ByToll, "D", AJ6a(), 7)
  {
    RelaxUnchanged(PredefinedGraph, ByToll, "D", AJ6a(), 2);
    AJ6Tail2();
  }

  /** No edge after index 2 and before 7 touches `D`. */
  lemma AJ6Tail2()
    ensures RelaxFrom(PredefinedGraph, ByToll, "D", AJ6a(), 3) == RelaxFrom(PredefinedGraph, ByToll, "D", AJ6a(), 7)
  {
    Skip(ByToll, "D", AJ6a(), 3, 7);
  }

  /** Edge 7 leaves `G` as it is. */
  lemma AJ6Edge7()
    ensures RelaxFrom(PredefinedGraph, ByToll, "D", AJ6a(), 7) == RelaxFrom(PredefinedGraph, ByToll, "D", AJ6a(), 8)
  {
    RelaxUnchanged(PredefinedGraph, ByToll, "D", AJ6a(), 7);
  }

  /** Edge 8 improves `H` to 2.5; no other edge from index 8 up to 19 touches `D`. */
  lemma AJ6Edge8()
    ensures RelaxFrom(PredefinedGraph, ByToll, "D", AJ6a(), 8) == RelaxFrom(PredefinedGraph, ByToll, "D", AJ6b(), 19)
  {
    InsertAt(AJ6a().queue, At("H", 2.5), 2);
    assert Relax(PredefinedGraph, ByToll, "D", AJ6a(), 8) == AJ6b();
    AJ6Tail8();
  }

  /** No edge after index 8 and before 19 touches `D`. */
  lemma AJ6Tail8()
    ensures RelaxFrom(PredefinedGraph, ByToll, "D", AJ6b(), 9) == RelaxFrom(PredefinedGraph, ByToll, "D", AJ6b(), 19)
  {
    Skip(ByToll, "D", AJ6b(), 9, 19);
  }

  /** From `A` to `J` by toll, iteration 6: the pass over the edge list from `D`; `H` improves to 2.5; `A`, `G` keep their entries. */
  lemma AJ6Pass()
    ensures RelaxFrom(PredefinedGraph, ByToll, "D", AJ6a(), 0) == AJ6b()
  {
    AJ6Lead();
    AJ6Edge2();
    AJ6Edge7();
    AJ6Edge8();
  }

  /** From `A` to `J` by toll, iteration 6: dequeuing `D` records it as expanded. */
  lemma AJ6Enter()
    ensures Entered(AJ5a().(queue := AJ6a().queue), "D") == AJ6a()
  {
    assert "D" !in AJ5a().settled;
    assert |AJ5a().settled| == 5;
  }

  /** From `A` to `J` by toll, iteration 6: `D` is dequeued and expanded. */
  lemma AJ6(s: State)
    requires s == AJ5a()
    ensures Step(PredefinedGraph, ByToll, "J", s) == AJ6b()
  {
    Pop(ByToll, "J", s, "D", AJ6a().queue);
    AJ6Enter();
    AJ6Pass();
  }

  /** From `A` to `J` by toll, iteration 7: `G` dequeued and expanded. */
  function AJ7a(): State {
    State([At("J", 2.0), At("H", 2.5), At("I", 3.0)] + Unreached(),
      Entries(Origin, Seen(1.5, 5.0, "A"), Seen(0.5, 10.0, "A"), Seen(2.0, 15.0, "A"), Seen(1.0, 15.0, "F"), Seen(0.5, 13.0, "C"), Seen(2.0, 21.0, "C"), Seen(2.5, 24.0, "D"), Seen(3.0, 29.0, "F"), Seen(2.0, 27.0, "F")),
      map["A" := 0, "C" := 1, "F" := 2, "E" := 3, "B" := 4, "D" := 5, "G" := 6], map["B" := 0, "C" := 1, "D" := 2, "F" := 5, "G" := 6, "I" := 10, "J" := 11, "E" := 16, "H" := 8], false)
  }

  /** No edge before index 6 touches `G`. */
  lemma AJ7Lead()
    ensures RelaxFrom(PredefinedGraph, ByToll, "G", AJ7a(), 0) == RelaxFrom(PredefinedGraph, ByToll, "G", AJ7a(), 6)
  {
    Skip(ByToll, "G", AJ7a(), 0, 6);
  }

  /** Edge 6 leaves `C` as it is. */
  lemma AJ7Edge6()
    ensures RelaxFrom(PredefinedGraph, ByToll, "G", AJ7a(), 6) == RelaxFrom(PredefinedGraph, ByToll, "G", AJ7a(), 7)
  {
    RelaxUnchanged(PredefinedGraph, ByToll, "G", AJ7a(), 6);
  }

  /** Edge 7 leaves `D` as it is; no other edge from index 7 up to 12 touches `G`. */
  lemma AJ7Edge7()
    ensures RelaxFrom(PredefinedGraph, ByToll, "G", AJ7a(), 7) == RelaxFrom(PredefinedGraph, ByToll, "G", AJ7a(), 12)
  {
    RelaxUnchanged(PredefinedGraph, ByToll, "G", AJ7a(), 7);
    AJ7Tail7();
  }

  /** No edge after index 7 and before 12 touches `G`. */
  lemma AJ7Tail7()
    ensures RelaxFrom(PredefinedGraph, ByToll, "G", AJ7a(), 8) == RelaxFrom(PredefinedGraph, ByToll, "G", AJ7a(), 12)
  {
    Skip(ByToll, "G", AJ7a(), 8, 12);
  }

  /** Edge 12 leaves `J` as it is; no other edge from index 12 up to 17 touches `G`. */
  lemma AJ7Edge12()
    ensures RelaxFrom(PredefinedGraph, ByToll, "G", AJ7a(), 12) == RelaxFrom(PredefinedGraph, ByToll, "G", AJ7a(), 17)
  {
    RelaxUnchanged(PredefinedGraph, ByToll, "G", AJ7a(), 12);
    AJ7Tail12();
  }

  /** No edge after index 12 and before 17 touches `G`. */
  lemma AJ7Tail12()
    ensures RelaxFrom(PredefinedGraph, ByToll, "G", AJ7a(), 13) == RelaxFrom(PredefinedGraph, ByToll, "G", AJ7a(), 17)
  {
    Skip(ByToll, "G", AJ7a(), 13, 17);
  }

  /** Edge 17 leaves `H` as it is; no other edge from index 17 up to 19 touches `G`. */
  lemma AJ7Edge17()
    ensures RelaxFrom(PredefinedGraph, ByToll, "G", AJ7a(), 17) == RelaxFrom(PredefinedGraph, ByToll, "G", AJ7a(), 19)
  {
    RelaxUnchanged(PredefinedGraph, ByToll, "G", AJ7a(), 17);
    AJ7Tail17();
  }

  /** No edge after index 17 and before 19 touches `G`. */
  lemma AJ7Tail17()
    ensures RelaxFrom(PredefinedGraph, ByToll, "G", AJ7a(), 18) == RelaxFrom(PredefinedGraph, ByToll, "G", AJ7a(), 19)
  {
    Skip(ByToll, "G", AJ7a(), 18, 19);
  }

  /** From `A` to `J` by toll, iteration 7: the pass over the edge list from `G`; no neighbour improves; `C`, `D`, `J`, `H` keep their entries. */
  lemma AJ7Pass()
    ensures RelaxFrom(PredefinedGraph, ByToll, "G", AJ7a(), 0) == AJ7a()
  {
    AJ7Lead();
    AJ7Edge6();
    AJ7Edge7();
    AJ7Edge12();
    AJ7Edge17();
  }

  /** From `A` to `J` by toll, iteration 7: dequeuing `G` records it as expanded. */
  lemma AJ7Enter()
    ensures Entered(AJ6b().(queue := AJ7a().queue), "G") == AJ7a()
  {
    assert "G" !in AJ6b().settled;
    assert |AJ6b().settled| == 6;
  }

  /** From `A` to `J` by toll, iteration 7: `G` is dequeued and expanded. */
  lemma AJ7(s: State)
    requires s == AJ6b()
    ensures Step(PredefinedGraph, ByToll, "J", s) == AJ7a()
  {
    Pop(ByToll, "J", s, "G", AJ7a().queue);
    AJ7Enter();
    AJ7Pass();
  }

  /** After 3 iterations the search from `A` to `F` is in state `AF3b`, with `F` at the head of its queue. */
  lemma ReachAF() returns (n: nat)
    ensures Run(PredefinedGraph, ByDistance, "A", "F", n) == AF3b()
  {
    SeedFromA();
    n := 0;
    AF1(Run(PredefinedGraph, ByDistance, "A", "F", n));
    RunNext(PredefinedGraph, ByDistance, "A", "F", n);
    n := n + 1;
    AF2(Run(PredefinedGraph, ByDistance, "A", "F", n));
    RunNext(PredefinedGraph, ByDistance, "A", "F", n);
    n := n + 1;
    AF3(Run(PredefinedGraph, ByDistance, "A", "F", n));
    RunNext(PredefinedGraph, ByDistance, "A", "F", n);
    n := n + 1;
  }

  /** ... and stops in the next iteration, which dequeues `F`. */
  lemma StopAF() returns (n: nat)
    ensures Halted(Run(PredefinedGraph, ByDistance, "A", "F", n))
    ensures Run(PredefinedGraph, ByDistance, "A", "F", n).table == AF3b().table
  {
    var m := ReachAF();
    n := Finish(ByDistance, "A", "F", m);
  }

  /** In the final entries the links lead from `F` back to `A` along `F`, `B`, `A`. */
  lemma AFLinks()
    ensures LinkedAlong(AF3b().table, ["A", "B", "F"], 13.0, 2.5)
  {
  }

  /**
   * The search from `A` to `F` by distance stops when `F` is dequeued in
   * iteration 4; the links lead back through `B`, the route the engine returns.
   */
  lemma RunAF() returns (n: nat)
    ensures WellFormed(PredefinedGraph)
    ensures Halted(Run(PredefinedGraph, ByDistance, "A", "F", n))
    ensures Answer(PredefinedGraph, ByDistance, "A", "F", n) == Ok(Route(["A", "B", "F"], 13.0, 2.5))
  {
    PredefinedWellFormed();
    n := StopAF();
    AFLinks();
    AnswerAlong(PredefinedGraph, ByDistance, "A", "F", n, ["A", "B", "F"], 13.0, 2.5);
  }

  /** After 7 iterations the search from `A` to `J` is in state `AJ7a`, with `J` at the head of its queue. */
  lemma ReachAJ() returns (n: nat)
    ensures Run(PredefinedGraph, ByToll, "A", "J", n) == AJ7a()
  {
    SeedFromA();
    n := 0;
    AJ1(Run(PredefinedGraph, ByToll, "A", "J", n));
    RunNext(PredefinedGraph, ByToll, "A", "J", n);
    n := n + 1;
    AJ2(Run(PredefinedGraph, ByToll, "A", "J", n));
    RunNext(PredefinedGraph, ByToll, "A", "J", n);
    n := n + 1;
    AJ3(Run(PredefinedGraph, ByToll, "A", "J", n));
    RunNext(PredefinedGraph, ByToll, "A", "J", n);
    n := n + 1;
    AJ4(Run(PredefinedGraph, ByToll, "A", "J", n));
    RunNext(PredefinedGraph, ByToll, "A", "J", n);
    n := n + 1;
    AJ5(Run(PredefinedGraph, ByToll, "A", "J", n));
    RunNext(PredefinedGraph, ByToll, "A", "J", n);
    n := n + 1;
    AJ6(Run(PredefinedGraph, ByToll, "A", "J", n));
    RunNext(PredefinedGraph, ByToll, "A", "J", n);
    n := n + 1;
    AJ7(Run(PredefinedGraph, ByToll, "A", "J", n));
    RunNext(PredefinedGraph, ByToll, "A", "J", n);
    n := n + 1;
  }

  /** ... and stops in the next iteration, which dequeues `J`. */
  lemma StopAJ() returns (n: nat)
    ensures Halted(Run(PredefinedGraph, ByToll, "A", "J", n))
    ensures Run(PredefinedGraph, ByToll, "A", "J", n).table == AJ7a().table
  {
    var m := ReachAJ();
    n := Finish(ByToll, "A", "J", m);
  }

  /** In the final entries the links lead from `J` back to `A` along `J`, `F`, `C`, `A`. */
  lemma AJLinks()
    ensures LinkedAlong(AJ7a().table, ["A", "C", "F", "J"], 2.0, 27.0)
  {
  }

  /**
   * The search from `A` to `J` by toll stops when `J` is dequeued in
   * iteration 8; the links lead back through `F` and `C`, the route the engine returns.
   */
  lemma RunAJ() returns (n: nat)
    ensures WellFormed(PredefinedGraph)
    ensures Halted(Run(PredefinedGraph, ByToll, "A", "J", n))
    ensures Answer(PredefinedGraph, ByToll, "A", "J", n) == Ok(Route(["A", "C", "F", "J"], 27.0, 2.0))
  {
    PredefinedWellFormed();
    n := StopAJ();
    AJLinks();
    AnswerAlong(PredefinedGraph, ByToll, "A", "J", n, ["A", "C", "F", "J"], 2.0, 27.0);
  }
}
