/**
 * The route engine's priority queue: an array of `{element, priority}`
 * records kept in non-decreasing priority order by inserting each new record
 * before the first record of strictly greater priority.
 */
module Queues {
  import opened Wrappers
  import opened Costs

  datatype Item<T> = Item(element: T, priority: Cost)

  /** Priorities never decrease from front to back. */
  ghost predicate Sorted<T>(q: seq<Item<T>>) {
    forall i, j :: 0 <= i < j < |q| ==> AtMost(q[i].priority, q[j].priority)
  }

  /** The list `enqueue` produces: `x` goes before the first item of strictly greater priority. */
  ghost function Insert<T>(q: seq<Item<T>>, x: Item<T>): seq<Item<T>> {
    if q == [] then [x]
    else if Less(x.priority, q[0].priority) then [x] + q
    else [q[0]] + Insert(q[1..], x)
  }

  /** `enqueue`'s scan: if the first `k` items are not greater than `x` and item `k` is (or there is none), `x` lands at `k`. */
  lemma {:induction false} InsertAt<T>(q: seq<Item<T>>, x: Item<T>, k: nat)
    requires k <= |q|
    requires forall i :: 0 <= i < k ==> !Less(x.priority, q[i].priority)
    requires k < |q| ==> Less(x.priority, q[k].priority)
    ensures Insert(q, x) == q[..k] + [x] + q[k..]
  {
    if q == [] {
    } else if k == 0 {
      assert q[..0] + [x] + q[0..] == [x] + q;
    } else {
      InsertAt(q[1..], x, k - 1);
      assert q[..k] == [q[0]] + q[1..][..k - 1];
      assert q[k..] == q[1..][k - 1..];
    }
  }

  /** Inserting adds exactly `x` and loses nothing. */
  lemma {:induction false} InsertContents<T>(q: seq<Item<T>>, x: Item<T>)
    ensures multiset(Insert(q, x)) == multiset(q) + multiset{x}
    ensures |Insert(q, x)| == |q| + 1
  {
    if q != [] && !Less(x.priority, q[0].priority) {
      InsertContents(q[1..], x);
      assert q == [q[0]] + q[1..];
    }
  }

  lemma InsertMember<T>(q: seq<Item<T>>, x: Item<T>, y: Item<T>)
    ensures y in Insert(q, x) <==> y in q || y == x
  {
    InsertContents(q, x);
    assert y in Insert(q, x) <==> y in multiset(Insert(q, x));
    assert y in q <==> y in multiset(q);
  }

  /** Inserting into a sorted list keeps it sorted. */
  lemma {:induction false} InsertSorted<T>(q: seq<Item<T>>, x: Item<T>)
    requires Sorted(q)
    ensures Sorted(Insert(q, x))
  {
    if q != [] && !Less(x.priority, q[0].priority) {
      InsertSorted(q[1..], x);
      var r := Insert(q, x);
      forall i, j | 0 <= i < j < |r| ensures AtMost(r[i].priority, r[j].priority) {
        var tail := Insert(q[1..], x);
        assert r == [q[0]] + tail;
        if i == 0 {
          assert r[j] == tail[j - 1] && r[j] in tail;
          if r[j] != x {
            InsertMember(q[1..], x, r[j]);
            var m :| 0 <= m < |q[1..]| && q[1..][m] == r[j];
            assert q[m + 1] == r[j];
          }
        } else {
          assert r[i] == tail[i - 1] && r[j] == tail[j - 1];
        }
      }
    }
  }

  /**
   * In a sorted list the new item lands after every item of equal or lower
   * priority (equal priorities leave in arrival order) and before every item
   * of greater priority; the other items keep their relative order.
   */
  lemma InsertPlacement<T>(q: seq<Item<T>>, x: Item<T>)
    requires Sorted(q)
    ensures exists k :: (
              && 0 <= k <= |q|
              && Insert(q, x) == q[..k] + [x] + q[k..]
              && (forall i :: 0 <= i < k ==> AtMost(q[i].priority, x.priority))
              && (forall i :: k <= i < |q| ==> Less(x.priority, q[i].priority)))
  {
    var k := 0;
    while k < |q| && !Less(x.priority, q[k].priority)
      invariant k <= |q|
      invariant forall i :: 0 <= i < k ==> !Less(x.priority, q[i].priority)
    {
      k := k + 1;
    }
    InsertAt(q, x, k);
  }

  /** The front of a sorted list has the least priority. */
  lemma FrontIsMinimal<T>(q: seq<Item<T>>)
    requires Sorted(q) && q != []
    ensures forall y :: y in q ==> AtMost(q[0].priority, y.priority)
  {
  }

  class PriorityQueue<T> {
    var items: seq<Item<T>>

    ghost predicate Valid()
      reads this
    {
      Sorted(items)
    }

    constructor()
      ensures items == [] && Valid()
    {
      items := [];
    }

    /** Splices the new item in before the first item of strictly greater priority, or appends it. */
    method Enqueue(element: T, priority: Cost)
      modifies this
      ensures items == Insert(old(items), Item(element, priority))
      ensures old(Valid()) ==> Valid()
    {
      var queueItem := Item(element, priority);
      var added := false;
      for i := 0 to |items|
        invariant items == old(items) && !added
        invariant forall j :: 0 <= j < i ==> !Less(queueItem.priority, items[j].priority)
      {
        if Less(queueItem.priority, items[i].priority) {
          InsertAt(items, queueItem, i);
          items := items[..i] + [queueItem] + items[i..];
          added := true;
          break;
        }
      }
      if !added {
        InsertAt(items, queueItem, |items|);
        assert items[..|items|] == items && items[|items|..] == [];
        items := items + [queueItem];
      }
      if old(Valid()) {
        InsertSorted(old(items), queueItem);
      }
    }

    /** Shifts the front item off and returns its element; an empty queue yields nothing. */
    method Dequeue() returns (element: Option<T>)
      modifies this
      ensures old(items) == [] ==> element == None && items == []
      ensures old(items) != [] ==> element == Some(old(items)[0].element) && items == old(items)[1..]
      ensures old(Valid()) ==> Valid()
    {
      if items == [] {
        element := None;
      } else {
        element := Some(items[0].element);
        items := items[1..];
      }
    }

    predicate IsEmpty()
      reads this
    {
      |items| == 0
    }
  }
}
