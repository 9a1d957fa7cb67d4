// The tagged FIFO queue of queue.c, which carries records to the mission
// and navigate tasks.
//
// The nodes from `head` onwards are the sequence `items`. The `tail`
// pointer is kept apart as the record of the node it points at, because
// the source does not clear it when the last node is dequeued: after that
// `items` is empty while `tail` still names the freed node.

module Fifo {
  import opened General
  import opened Records

  class Queue {
    var items: seq<Payload>
    var count: int
    /** The record in the node `tail` points at; None when `tail` is null. */
    var tail: Option<Payload>

    /** `count` matches the linked nodes, and a non-empty queue's tail is its last node. */
    ghost predicate Valid()
      reads this
    {
      count == |items| && (|items| > 0 ==> tail == Some(items[|items| - 1]))
    }

    /** The tail pointer outlives the nodes: it is set while the queue is empty. */
    predicate TailDangling()
      reads this
    {
      |items| == 0 && tail.Some?
    }

    /** queue_init: `head` and `tail` null, `count` 0. */
    constructor ()
      ensures Valid()
      ensures items == [] && count == 0 && tail == None
    {
      items := [];
      count := 0;
      tail := None;
    }

    /**
     * queue_enqueue: a copy of p, with its tag, is linked at the tail. An
     * empty queue is recognised by its null head, so a dangling tail left
     * by an earlier dequeue is overwritten rather than followed.
     */
    method Enqueue(p: Payload)
      requires Valid()
      modifies this
      ensures Valid()
      ensures items == old(items) + [p]
      ensures count == old(count) + 1
      ensures tail == Some(p) && !TailDangling()
    {
      count := count + 1;
      if |items| == 0 {
        items := [p];
      } else {
        items := items + [p];
      }
      tail := Some(p);
    }

    /**
     * queue_dequeue: on a non-empty queue, hands back the oldest record and
     * its tag and unlinks it, leaving `tail` as it was (dangling once the
     * queue is empty). On an empty queue the caller's variables, passed in
     * as `dataTypeIn` and `dataIn`, come back unchanged and only `tail` is
     * cleared.
     */
    method Dequeue(dataTypeIn: int, dataIn: Payload) returns (dataType: int, data: Payload)
      requires Valid()
      modifies this
      ensures Valid()
      ensures old(|items|) > 0 ==>
                data == old(items[0]) && dataType == TagOf(data) &&
                items == old(items[1..]) && count == old(count) - 1 && tail == old(tail)
      ensures old(|items|) == 0 ==>
                dataType == dataTypeIn && data == dataIn &&
                items == [] && count == old(count) && tail == None
    {
      if |items| > 0 {
        count := count - 1;
        dataType := TagOf(items[0]);
        data := items[0];
        items := items[1..];
      } else {
        dataType := dataTypeIn;
        data := dataIn;
        tail := None;
      }
    }

    /** queue_empty: unlinks every node from the head, then clears `count` and `tail`. */
    method Empty()
      requires Valid()
      modifies this
      ensures Valid()
      ensures items == [] && count == 0 && tail == None
    {
      ghost var n := 0;
      while |items| > 0
        invariant 0 <= n <= |old(items)| && items == old(items)[n..]
        decreases |items|
      {
        items := items[1..];
        n := n + 1;
      }
      count := 0;
      tail := None;
    }
  }

  /**
   * Emptying the queue by dequeuing leaves a dangling tail that a later
   * enqueue replaces. Shown on a two-step scenario.
   */
  method DanglingTailScenario(p: Payload, q: Payload) returns (first: Payload, second: Payload)
    ensures first == p && second == q
  {
    var fifo := new Queue();
    fifo.Enqueue(p);
    var t;
    t, first := fifo.Dequeue(-1, q);
    assert fifo.TailDangling();
    fifo.Enqueue(q);
    assert fifo.items == [q];
    t, second := fifo.Dequeue(-1, p);
  }
}
