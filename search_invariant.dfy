/**
 * The search invariant holds of the seeded state and is kept by every
 * iteration of the main loop; each iteration that does not stop the search
 * either expands a new node or shortens the queue.
 */
module SearchInvariant {
  import opened Wrappers
  import opened Costs
  import opened Queues
  import opened GraphData
  import opened Search

  function Seeded(n: Node, start: Node): Item<Node> {
    Item(n, InitialCost(n, start))
  }

  /** After seeding `i` nodes: each has its initial cost, carried 0 and no link, and nothing is expanded. */
  lemma {:induction false} SeedTable(g: Graph, start: Node, i: nat)
    requires i <= |g.nodes|
    ensures var s := Seed(g, start, i);
      && (forall j :: 0 <= j < i ==> g.nodes[j] in s.table)
      && (forall v :: v in s.table ==> v in g.nodes && s.table[v] == Entry(InitialCost(v, start), 0.0, None))
      && s.settled == map[] && s.via == map[] && !s.reached
  {
    if i > 0 {
      SeedTable(g, start, i - 1);
    }
  }

  /** `q` is sorted and holds exactly the first `i` nodes, each at its initial cost. */
  ghost predicate SeededQueue(g: Graph, start: Node, q: seq<Item<Node>>, i: nat)
    requires i <= |g.nodes|
  {
    && Sorted(q)
    && (forall it :: it in q ==> it.element in g.nodes && it == Seeded(it.element, start))
    && (forall j :: 0 <= j < i ==> Seeded(g.nodes[j], start) in q)
  }

  lemma SeedQueueStep(g: Graph, start: Node, q: seq<Item<Node>>, i: nat)
    requires i < |g.nodes| && SeededQueue(g, start, q, i)
    ensures SeededQueue(g, start, Insert(q, Seeded(g.nodes[i], start)), i + 1)
  {
    var x := Seeded(g.nodes[i], start);
    var q' := Insert(q, x);
    InsertSorted(q, x);
    forall it | it in q' ensures it.element in g.nodes && it == Seeded(it.element, start) {
      InsertMember(q, x, it);
    }
    forall j | 0 <= j < i + 1 ensures Seeded(g.nodes[j], start) in q' {
      InsertMember(q, x, Seeded(g.nodes[j], start));
    }
  }

  /** Seeding one more node inserts its item into the queue. */
  lemma SeedUnfold(g: Graph, start: Node, i: nat)
    requires 0 < i <= |g.nodes|
    ensures Seed(g, start, i).queue == Insert(Seed(g, start, i - 1).queue, Seeded(g.nodes[i - 1], start))
  {
  }

  /** After seeding the queue is sorted and holds exactly the nodes at their initial costs. */
  lemma SeedQueue(g: Graph, start: Node)
    ensures SeededQueue(g, start, Init(g, start).queue, |g.nodes|)
  {
    var i := 0;
    while i < |g.nodes|
      invariant i <= |g.nodes| && SeededQueue(g, start, Seed(g, start, i).queue, i)
    {
      SeedQueueStep(g, start, Seed(g, start, i).queue, i);
      SeedUnfold(g, start, i + 1);
      i := i + 1;
    }
  }

  /** The seeded entries: every node at its initial cost with no link, nothing expanded. */
  lemma InitTable(g: Graph, p: Policy, start: Node, end: Node)
    requires WellFormed(g) && start in g.nodes && end in g.nodes
    ensures var s := Init(g, start);
      && KeysOk(g, s) && EndsOk(start, end, s) && CostsOk(s) && Links(g, p, start, s) && RanksOk(s)
      && s.settled == map[] && !s.reached
      && (forall v :: v in s.table ==> v in g.nodes && s.table[v].cost == InitialCost(v, start))
  {
    SeedTable(g, start, |g.nodes|);
    var j :| 0 <= j < |g.nodes| && g.nodes[j] == start;
  }

  /** The seeded queue: sorted, every node in it at its initial cost. */
  lemma InitQueue(g: Graph, p: Policy, start: Node, end: Node)
    requires WellFormed(g) && start in g.nodes && end in g.nodes
    ensures var s := Init(g, start); QueueOk(s) && Pending(end, s)
  {
    InitTable(g, p, start, end);
    SeedQueue(g, start);
    var s := Init(g, start);
    forall it | it in s.queue ensures it.element in s.table && AtMost(s.table[it.element].cost, it.priority) {
      var j :| 0 <= j < |g.nodes| && g.nodes[j] == it.element;
    }
    forall v | v in s.table ensures Item(v, s.table[v].cost) in s.queue {
      var j :| 0 <= j < |g.nodes| && g.nodes[j] == v;
    }
  }

  /** The seeded state satisfies the invariant. */
  lemma InitInv(g: Graph, p: Policy, start: Node, end: Node)
    requires WellFormed(g) && start in g.nodes && end in g.nodes
    ensures Inv(g, p, start, end, Init(g, start))
  {
    InitTable(g, p, start, end);
    InitQueue(g, p, start, end);
  }

  // ---------------------------------------------------------------------
  // Relaxing one edge

  /** Edge `i` strictly improves the best cost of `u`'s neighbour. */
  ghost predicate Improves(g: Graph, p: Policy, u: Node, st: State, i: nat)
    requires i < |g.edges|
  {
    var e := g.edges[i];
    && Touches(e, u) && u in st.table && Other(e, u) in st.table
    && Less(Add(st.table[u].cost, Ranked(p, e)), st.table[Other(e, u)].cost)
  }

  /** What an improving relaxation knows: the neighbour is not expanded, not the start, and gets a finite cost. */
  lemma ImprovedNeighbour(g: Graph, p: Policy, start: Node, end: Node, u: Node, st: State, i: nat)
    requires i < |g.edges| && Relaxing(g, p, start, end, u, st, i) && Improves(g, p, u, st, i)
    ensures var e := g.edges[i]; var v := Other(e, u); var c := Add(st.table[u].cost, Ranked(p, e));
      && v !in st.settled && v != u && v != start && c.Fin? && NonNegative(c) && AtMost(st.table[u].cost, c)
  {
    assert st.table[u].cost.Fin?;
  }

  lemma ImproveQueue(g: Graph, p: Policy, start: Node, end: Node, u: Node, st: State, i: nat)
    requires i < |g.edges| && Relaxing(g, p, start, end, u, st, i) && Improves(g, p, u, st, i)
    ensures var s := Relax(g, p, u, st, i); QueueOk(s) && Pending(end, s) && SettledFirst(s)
  {
    ImprovedNeighbour(g, p, start, end, u, st, i);
    var e := g.edges[i];
    var v := Other(e, u);
    var c := Add(st.table[u].cost, Ranked(p, e));
    var x := Item(v, c);
    var s := Relax(g, p, u, st, i);
    assert s.queue == Insert(st.queue, x) && s.table == st.table[v := s.table[v]] && s.table[v].cost == c;
    assert s.settled == st.settled && !s.reached;
    InsertSorted(st.queue, x);
    forall it | it in s.queue ensures it.element in s.table && AtMost(s.table[it.element].cost, it.priority) {
      InsertMember(st.queue, x, it);
    }
    forall w | w in s.table && w !in s.settled ensures Item(w, s.table[w].cost) in s.queue {
      InsertMember(st.queue, x, Item(w, s.table[w].cost));
    }
    assert SettledFirst(s) by {
      InsertMember(st.queue, x, s.queue[0]);
      if s.queue[0] != x {
        FrontIsMinimal(st.queue);
      }
    }
  }

  lemma ImproveLinks(g: Graph, p: Policy, start: Node, end: Node, u: Node, st: State, i: nat)
    requires i < |g.edges| && Relaxing(g, p, start, end, u, st, i) && Improves(g, p, u, st, i)
    ensures Links(g, p, start, Relax(g, p, u, st, i))
  {
    ImprovedNeighbour(g, p, start, end, u, st, i);
    var e := g.edges[i];
    var v := Other(e, u);
    var s := Relax(g, p, u, st, i);
    forall w | w in s.table
      ensures if s.table[w].prev.Some? then LinkOk(g, p, s, w) else w == start || s.table[w].cost == Inf
    {
      if w == v {
        assert Joins(e, u, v);
        assert LinkOk(g, p, s, w);
      } else if st.table[w].prev.Some? {
        assert LinkOk(g, p, st, w);
        assert st.table[w].prev.value != v;
      }
    }
  }

  lemma ImproveRelaxed(g: Graph, p: Policy, u: Node, st: State, i: nat)
    requires i < |g.edges| && RelaxedBut(g, p, st, u, i) && Improves(g, p, u, st, i)
    requires Other(g.edges[i], u) !in st.settled
    ensures RelaxedBut(g, p, Relax(g, p, u, st, i), u, i + 1)
  {
    var v := Other(g.edges[i], u);
    var s := Relax(g, p, u, st, i);
    var c := Add(st.table[u].cost, Ranked(p, g.edges[i]));
    assert s.settled == st.settled && s.table == st.table[v := s.table[v]] && s.table[v].cost == c;
    forall w, j | w in s.settled && 0 <= j < |g.edges| && (w == u ==> j < i + 1)
      ensures EdgeRelaxed(g, p, s.table, w, j)
    {
      var x := Other(g.edges[j], w);
      assert w != v;
      if Touches(g.edges[j], w) && w in s.table && x in s.table && (w != u || j != i) {
        assert EdgeRelaxed(g, p, st.table, w, j);
        assert AtMost(s.table[x].cost, st.table[x].cost);
      }
    }
  }

  /** The entries after an improvement: costs stay non-negative, the start and the expanded nodes are untouched. */
  lemma ImproveTable(g: Graph, p: Policy, start: Node, end: Node, u: Node, st: State, i: nat)
    requires i < |g.edges| && Improves(g, p, u, st, i)
    requires KeysOk(g, st) && EndsOk(start, end, st) && CostsOk(st) && RanksOk(st) && !st.reached
    requires forall w :: w in st.settled && w in st.table ==> AtMost(st.table[w].cost, st.table[u].cost)
    requires var c := Add(st.table[u].cost, Ranked(p, g.edges[i])); var v := Other(g.edges[i], u);
      v !in st.settled && v != u && v != start && NonNegative(c)
    ensures var s := Relax(g, p, u, st, i);
      && KeysOk(g, s) && EndsOk(start, end, s) && CostsOk(s) && RanksOk(s) && ReachedFirst(end, s)
      && s.settled == st.settled && !s.reached && s.table[u] == st.table[u]
      && forall w :: w in s.settled && w in s.table ==> AtMost(s.table[w].cost, s.table[u].cost)
  {
    var s := Relax(g, p, u, st, i);
    var v := Other(g.edges[i], u);
    assert s.table == st.table[v := s.table[v]] && s.settled == st.settled;
    assert CostsOk(s) by {
      forall w | w in s.table ensures NonNegative(s.table[w].cost) {
        if w != v { assert NonNegative(st.table[w].cost); }
      }
    }
    forall w | w in s.settled && w in s.table ensures AtMost(s.table[w].cost, s.table[u].cost) {
      assert w != v;
    }
  }

  /** Improving `u`'s neighbour keeps everything but the relaxation facts. */
  lemma ImproveCore(g: Graph, p: Policy, start: Node, end: Node, u: Node, st: State, i: nat)
    requires i < |g.edges| && Relaxing(g, p, start, end, u, st, i) && Improves(g, p, u, st, i)
    ensures var s := Relax(g, p, u, st, i);
      && Core(g, p, start, end, s) && s.settled == st.settled && !s.reached
      && s.table[u] == st.table[u]
      && forall w :: w in s.settled && w in s.table ==> AtMost(s.table[w].cost, s.table[u].cost)
  {
    ImprovedNeighbour(g, p, start, end, u, st, i);
    ImproveTable(g, p, start, end, u, st, i);
    ImproveQueue(g, p, start, end, u, st, i);
    ImproveLinks(g, p, start, end, u, st, i);
  }

  /** Relaxing edge `i` of `u` keeps the invariant and marks that edge relaxed. */
  lemma RelaxKeeps(g: Graph, p: Policy, start: Node, end: Node, u: Node, st: State, i: nat)
    requires i < |g.edges| && Relaxing(g, p, start, end, u, st, i)
    ensures var s := Relax(g, p, u, st, i);
      Relaxing(g, p, start, end, u, s, i + 1) && s.settled == st.settled
  {
    if Improves(g, p, u, st, i) {
      ImproveCore(g, p, start, end, u, st, i);
      ImprovedNeighbour(g, p, start, end, u, st, i);
      ImproveRelaxed(g, p, u, st, i);
    } else {
      assert Relax(g, p, u, st, i) == st;
      forall w, j | w in st.settled && 0 <= j < |g.edges| && (w == u ==> j < i + 1)
        ensures EdgeRelaxed(g, p, st.table, w, j)
      {
      }
    }
  }

  /** Relaxing all of `u`'s edges keeps the invariant and leaves them relaxed; `r` is the resulting state. */
  lemma RelaxFromKeeps(g: Graph, p: Policy, start: Node, end: Node, u: Node, st: State) returns (r: State)
    requires Relaxing(g, p, start, end, u, st, 0)
    ensures r == RelaxFrom(g, p, u, st, 0)
    ensures Relaxing(g, p, start, end, u, r, |g.edges|)
  {
    var i := 0;
    r := st;
    while i < |g.edges|
      invariant i <= |g.edges| && Relaxing(g, p, start, end, u, r, i)
      invariant RelaxFrom(g, p, u, r, i) == RelaxFrom(g, p, u, st, 0)
      decreases |g.edges| - i
    {
      RelaxKeeps(g, p, start, end, u, r, i);
      r := Relax(g, p, u, r, i);
      i := i + 1;
    }
  }

  /** An edge that offers no strict improvement changes nothing. */
  lemma RelaxUnchanged(g: Graph, p: Policy, u: Node, st: State, i: nat)
    requires i < |g.edges| && !Improves(g, p, u, st, i)
    ensures Relax(g, p, u, st, i) == st
  {
  }

  /** Relaxing edges none of which improves anything changes nothing. */
  lemma {:induction false} RelaxNoOp(g: Graph, p: Policy, u: Node, st: State, i: nat)
    requires i <= |g.edges|
    requires forall j :: i <= j < |g.edges| ==> !Improves(g, p, u, st, j)
    ensures RelaxFrom(g, p, u, st, i) == st
    decreases |g.edges| - i
  {
    if i < |g.edges| {
      RelaxUnchanged(g, p, u, st, i);
      RelaxNoOp(g, p, u, st, i + 1);
    }
  }

  /** A node whose best cost is still `Infinity` improves no neighbour: `Infinity + w < c` never holds. */
  lemma InfinityRelaxesNothing(g: Graph, p: Policy, u: Node, st: State)
    requires u in st.table && st.table[u].cost == Inf
    ensures forall i :: 0 <= i < |g.edges| ==> !Improves(g, p, u, st, i)
    ensures RelaxFrom(g, p, u, st, 0) == st
  {
    RelaxNoOp(g, p, u, st, 0);
  }

  /** On a tie the neighbour keeps its earlier cost, link and carried metric, and nothing is queued. */
  lemma TieKeepsPredecessor(g: Graph, p: Policy, u: Node, st: State, i: nat)
    requires i < |g.edges| && Touches(g.edges[i], u) && u in st.table && Other(g.edges[i], u) in st.table
    requires Add(st.table[u].cost, Ranked(p, g.edges[i])) == st.table[Other(g.edges[i], u)].cost
    ensures Relax(g, p, u, st, i) == st
  {
  }

  /** A strict improvement sets the neighbour's cost, carried metric and link together and queues it. */
  lemma ImprovementUpdates(g: Graph, p: Policy, u: Node, st: State, i: nat)
    requires i < |g.edges| && Improves(g, p, u, st, i)
    ensures var e := g.edges[i]; var v := Other(e, u); var c := Add(st.table[u].cost, Ranked(p, e));
      var s := Relax(g, p, u, st, i);
      && s.table == st.table[v := Entry(c, st.table[u].carried + Carried(p, e), Some(u))]
      && s.queue == Insert(st.queue, Item(v, c))
      && s.settled == st.settled && s.reached == st.reached
  {
  }

  /** Relaxation changes entries but never which nodes have one. */
  lemma {:induction false} RelaxFromKeys(g: Graph, p: Policy, u: Node, st: State, i: nat)
    requires i <= |g.edges|
    ensures RelaxFrom(g, p, u, st, i).table.Keys == st.table.Keys
    ensures RelaxFrom(g, p, u, st, i).settled == st.settled
    ensures RelaxFrom(g, p, u, st, i).reached == st.reached
    decreases |g.edges| - i
  {
    if i < |g.edges| {
      var s := Relax(g, p, u, st, i);
      RelaxFromKeys(g, p, u, s, i + 1);
      assert RelaxFrom(g, p, u, st, i) == RelaxFrom(g, p, u, s, i + 1);
    }
  }

  // ---------------------------------------------------------------------
  // One iteration of the main loop

  /** Nodes with an entry that are not expanded yet: the first half of the loop's termination measure. */
  ghost function Unexpanded(st: State): nat {
    |st.table.Keys - st.settled.Keys|
  }

  ghost function Popped(st: State): State
    requires st.queue != []
  {
    st.(queue := st.queue[1..])
  }

  /** What dequeuing the front item keeps: the rest of the queue is sorted and still covers every other pending node. */
  lemma PopFacts(g: Graph, p: Policy, start: Node, end: Node, st: State)
    requires Inv(g, p, start, end, st) && st.queue != [] && !st.reached
    ensures var u := st.queue[0].element; var s := Popped(st);
      && u in st.table
      && (u !in st.settled ==> st.table[u].cost == st.queue[0].priority)
      && QueueOk(s) && SettledFirst(s)
      && (forall v :: v in st.table && v !in st.settled && v != u ==> Item(v, st.table[v].cost) in s.queue)
      && (s.queue != [] ==> AtMost(st.queue[0].priority, s.queue[0].priority))
  {
    var q := st.queue;
    var u := q[0].element;
    assert q[0] in q;
    forall it | it in q[1..] ensures it in q {
    }
    forall v | v in st.table && v !in st.settled && v != u ensures Item(v, st.table[v].cost) in q[1..] {
      assert Item(v, st.table[v].cost) in q && Item(v, st.table[v].cost) != q[0];
    }
    if u !in st.settled {
      assert Item(u, st.table[u].cost) in q;
      FrontIsMinimal(q);
    }
    if |q| > 1 {
      assert q[1..][0] == q[1];
    }
  }

  /** The parts of the invariant that do not look at the queue or at `reached`. */
  lemma EntriesFrame(g: Graph, p: Policy, start: Node, end: Node, st: State, s: State)
    requires s.table == st.table && s.settled == st.settled && s.via == st.via
    requires KeysOk(g, st) && EndsOk(start, end, st) && CostsOk(st) && Links(g, p, start, st) && RanksOk(st) && Relaxed(g, p, st)
    ensures KeysOk(g, s) && EndsOk(start, end, s) && CostsOk(s) && Links(g, p, start, s) && RanksOk(s) && Relaxed(g, p, s)
  {
    assert forall v :: v in s.table && s.table[v].prev.Some? ==> LinkOk(g, p, st, v) == LinkOk(g, p, s, v);
  }

  /** Dequeuing the destination stops the search with the invariant intact. */
  lemma StepReached(g: Graph, p: Policy, start: Node, end: Node, st: State)
    requires Inv(g, p, start, end, st) && !Halted(st) && st.queue[0].element == end
    ensures Step(g, p, end, st).reached
    ensures Inv(g, p, start, end, Step(g, p, end, st))
    ensures Step(g, p, end, st).table.Keys == st.table.Keys
  {
    PopFacts(g, p, start, end, st);
    var s := Popped(st).(reached := true);
    assert Step(g, p, end, st) == s;
    EntriesFrame(g, p, start, end, st, s);
    assert Pending(end, s);
  }

  /** Dropping the front item keeps the invariant when that node was expanded before. */
  lemma PopKeeps(g: Graph, p: Policy, start: Node, end: Node, st: State)
    requires Inv(g, p, start, end, st) && !Halted(st) && st.queue[0].element in st.settled
    ensures Inv(g, p, start, end, Popped(st))
  {
    PopFacts(g, p, start, end, st);
  }

  /** Dequeuing an already expanded node again relaxes nothing. */
  lemma StepRevisit(g: Graph, p: Policy, start: Node, end: Node, st: State)
    requires Inv(g, p, start, end, st) && !Halted(st)
    requires var u := st.queue[0].element; u != end && u in st.settled
    ensures Step(g, p, end, st) == Popped(st)
    ensures Inv(g, p, start, end, Step(g, p, end, st))
    ensures Step(g, p, end, st).table.Keys == st.table.Keys
    ensures Unexpanded(Step(g, p, end, st)) == Unexpanded(st) && |Step(g, p, end, st).queue| < |st.queue|
  {
    var u := st.queue[0].element;
    var s := Popped(st);
    PopKeeps(g, p, start, end, st);
    forall j | 0 <= j < |g.edges| ensures !Improves(g, p, u, s, j) {
      assert EdgeRelaxed(g, p, st.table, u, j);
    }
    RelaxNoOp(g, p, u, s, 0);
    assert Entered(s, u) == s;
  }

  /** The state right after a first dequeue of `u` is ready to have `u`'s edges relaxed. */
  lemma EnterKeeps(g: Graph, p: Policy, start: Node, end: Node, st: State)
    requires Inv(g, p, start, end, st) && !Halted(st)
    requires var u := st.queue[0].element; u != end && u !in st.settled
    ensures var u := st.queue[0].element; Relaxing(g, p, start, end, u, Entered(Popped(st), u), 0)
    ensures st.queue[0].element in st.table
  {
    var u := st.queue[0].element;
    PopFacts(g, p, start, end, st);
    var s0 := Entered(Popped(st), u);
    assert s0.settled == st.settled[u := |st.settled|] && s0.table == st.table;
    forall w | w in s0.settled && w in s0.table ensures AtMost(s0.table[w].cost, s0.table[u].cost) {
      if w != u {
        assert AtMost(st.table[w].cost, st.queue[0].priority);
      }
    }
    assert RanksOk(s0) by {
      forall w | w in s0.settled ensures s0.settled[w] < |s0.settled| {
        if w != u { assert st.settled[w] < |st.settled|; }
      }
    }
    assert Links(g, p, start, s0) by {
      forall w | w in s0.table && s0.table[w].prev.Some? ensures LinkOk(g, p, s0, w) {
        assert LinkOk(g, p, st, w);
        if w == u {
          assert st.settled[st.table[w].prev.value] < |st.settled|;
        }
      }
    }
  }

  /** Relaxing all of `u`'s edges from the entered state ends in a state satisfying the invariant. */
  lemma ExpandFinish(g: Graph, p: Policy, start: Node, end: Node, u: Node, s0: State) returns (r: State)
    requires Relaxing(g, p, start, end, u, s0, 0)
    ensures r == RelaxFrom(g, p, u, s0, 0)
    ensures Inv(g, p, start, end, r)
    ensures r.table.Keys == s0.table.Keys && r.settled == s0.settled
  {
    r := RelaxFromKeeps(g, p, start, end, u, s0);
    RelaxFromKeys(g, p, u, s0, 0);
  }

  /** A first dequeue of `u` enters it as expanded and relaxes its edges. */
  lemma ExpandUnfold(g: Graph, p: Policy, end: Node, st: State)
    requires st.queue != [] && st.queue[0].element != end && st.queue[0].element !in st.settled
    ensures var u := st.queue[0].element; var s0 := Entered(Popped(st), u);
      && Step(g, p, end, st) == RelaxFrom(g, p, u, s0, 0)
      && s0.table.Keys == st.table.Keys && s0.settled.Keys == st.settled.Keys + {u}
  {
  }

  /** Expanding a node with an entry leaves one node fewer unexpanded. */
  lemma ExpandCounts(st: State, s: State, u: Node)
    requires u in st.table && u !in st.settled
    requires s.table.Keys == st.table.Keys && s.settled.Keys == st.settled.Keys + {u}
    ensures Unexpanded(s) < Unexpanded(st)
  {
    assert s.table.Keys - s.settled.Keys == (st.table.Keys - st.settled.Keys) - {u};
  }

  /** Dequeuing a node for the first time: it is expanded and its edges are relaxed. */
  lemma StepExpand(g: Graph, p: Policy, start: Node, end: Node, st: State)
    requires Inv(g, p, start, end, st) && !Halted(st)
    requires var u := st.queue[0].element; u != end && u !in st.settled
    ensures Inv(g, p, start, end, Step(g, p, end, st))
    ensures Step(g, p, end, st).table.Keys == st.table.Keys
    ensures Unexpanded(Step(g, p, end, st)) < Unexpanded(st)
  {
    var u := st.queue[0].element;
    var s0 := Entered(Popped(st), u);
    EnterKeeps(g, p, start, end, st);
    var r := ExpandFinish(g, p, start, end, u, s0);
    ExpandUnfold(g, p, end, st);
    ExpandCounts(st, r, u);
  }

  // ---------------------------------------------------------------------
  // The main loop

  /**
   * An iteration keeps the invariant and never adds or drops an entry; unless
   * it stops the search it expands a new node or, expanding nothing, shortens
   * the queue.
   */
  lemma StepKeeps(g: Graph, p: Policy, start: Node, end: Node, st: State)
    requires Inv(g, p, start, end, st) && !Halted(st)
    ensures var s := Step(g, p, end, st);
      && Inv(g, p, start, end, s)
      && s.table.Keys == st.table.Keys
      && (s.reached || Unexpanded(s) < Unexpanded(st) || (Unexpanded(s) == Unexpanded(st) && |s.queue| < |st.queue|))
  {
    var u := st.queue[0].element;
    if u == end {
      StepReached(g, p, start, end, st);
    } else if u in st.settled {
      StepRevisit(g, p, start, end, st);
    } else {
      StepExpand(g, p, start, end, st);
    }
  }

  /** The invariant holds after any number of iterations. */
  lemma {:induction false} RunInv(g: Graph, p: Policy, start: Node, end: Node, k: nat)
    requires WellFormed(g) && start in g.nodes && end in g.nodes
    ensures Inv(g, p, start, end, Run(g, p, start, end, k))
  {
    if k == 0 {
      InitInv(g, p, start, end);
    } else {
      RunInv(g, p, start, end, k - 1);
      var s := Run(g, p, start, end, k - 1);
      if !Halted(s) {
        StepKeeps(g, p, start, end, s);
        assert Run(g, p, start, end, k) == Step(g, p, end, s);
      } else {
        assert Run(g, p, start, end, k) == s;
      }
    }
  }

  /** The search only runs dry after dequeuing the destination: until then the destination waits in the queue. */
  lemma HaltedReached(g: Graph, p: Policy, start: Node, end: Node, st: State)
    requires Inv(g, p, start, end, st) && Halted(st)
    ensures st.reached
  {
  }

  /** An iteration that does not find the search halted is a step. */
  lemma RunNext(g: Graph, p: Policy, start: Node, end: Node, k: nat)
    requires !Halted(Run(g, p, start, end, k))
    ensures Run(g, p, start, end, k + 1) == Step(g, p, end, Run(g, p, start, end, k))
  {
  }

  /** Once the search has halted, further iterations leave its state as it is. */
  lemma {:induction false} HaltedStays(g: Graph, p: Policy, start: Node, end: Node, k: nat, j: nat)
    requires k <= j && Halted(Run(g, p, start, end, k))
    ensures Run(g, p, start, end, j) == Run(g, p, start, end, k)
    decreases j - k
  {
    if k < j {
      HaltedStays(g, p, start, end, k, j - 1);
    }
  }

  /** An iteration that does not stop the search makes progress on the measure. */
  lemma RunProgress(g: Graph, p: Policy, start: Node, end: Node, k: nat)
    requires WellFormed(g) && start in g.nodes && end in g.nodes && !Halted(Run(g, p, start, end, k))
    ensures var s := Run(g, p, start, end, k); var t := Run(g, p, start, end, k + 1);
      t.reached || Unexpanded(t) < Unexpanded(s) || (Unexpanded(t) == Unexpanded(s) && |t.queue| < |s.queue|)
  {
    var s := Run(g, p, start, end, k);
    RunInv(g, p, start, end, k);
    StepKeeps(g, p, start, end, s);
    assert Run(g, p, start, end, k + 1) == Step(g, p, end, s);
  }

  /** From any iteration the search halts after finitely many more: returns such an iteration count `n`. */
  lemma {:induction false} HaltsFrom(g: Graph, p: Policy, start: Node, end: Node, k: nat) returns (n: nat)
    requires WellFormed(g) && start in g.nodes && end in g.nodes
    ensures k <= n && Halted(Run(g, p, start, end, n))
    decreases Unexpanded(Run(g, p, start, end, k)), |Run(g, p, start, end, k).queue|
  {
    if Halted(Run(g, p, start, end, k)) {
      n := k;
    } else {
      RunProgress(g, p, start, end, k);
      if Run(g, p, start, end, k + 1).reached {
        n := k + 1;
      } else {
        n := HaltsFrom(g, p, start, end, k + 1);
      }
    }
  }

  /** The search halts, and it halts by dequeuing the destination. */
  lemma Halts(g: Graph, p: Policy, start: Node, end: Node) returns (n: nat)
    requires WellFormed(g) && start in g.nodes && end in g.nodes
    ensures Halted(Run(g, p, start, end, n)) && Run(g, p, start, end, n).reached
  {
    n := HaltsFrom(g, p, start, end, 0);
    RunInv(g, p, start, end, n);
    HaltedReached(g, p, start, end, Run(g, p, start, end, n));
  }
}
