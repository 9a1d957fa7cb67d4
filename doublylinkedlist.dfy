// The tagged doubly linked list of doublylinkedlist.c, which the agent
// uses as its send list.
//
// The nodes, in order from `first` to `last`, are the sequence `items`; a
// node is named by its position. Each node holds a by-value copy of a
// record, and since `Payload` is a value type, later changes to the
// caller's record cannot reach the copy. `count` is kept as the separate
// field the source maintains by hand.

module DoublyLinkedList {
  import opened General
  import opened Records

  class List {
    var items: seq<Payload>
    var count: int

    /** The hand-kept count matches the number of linked nodes. */
    ghost predicate Valid()
      reads this
    {
      count == |items|
    }

    /** The record in the `last` node, or None when `last` is null. */
    function Last(): (r: Option<Payload>)
      reads this
      ensures r.Some? <==> |items| > 0
      ensures r.Some? ==> r.value == items[|items| - 1]
    {
      if |items| == 0 then None else Some(items[|items| - 1])
    }

    /** The record in the `first` node, or None when `first` is null. */
    function First(): (r: Option<Payload>)
      reads this
      ensures r.Some? <==> |items| > 0
      ensures r.Some? ==> r.value == items[0]
    {
      if |items| == 0 then None else Some(items[0])
    }

    /** doublylinkedlist_init: `first` and `last` null, `count` 0. */
    constructor ()
      ensures Valid()
      ensures items == [] && count == 0
      ensures First() == None && Last() == None
    {
      items := [];
      count := 0;
    }

    /**
     * doublylinkedlist_insert_after: a copy of p, tagged with its data
     * type, is linked directly after node k; `last` moves only when node k
     * was the last one.
     */
    method InsertAfter(k: nat, p: Payload)
      requires Valid() && k < |items|
      modifies this
      ensures Valid()
      ensures items == old(items[..k + 1]) + [p] + old(items[k + 1..])
      ensures count == old(count) + 1
      ensures items[k + 1] == p && TagOf(items[k + 1]) == TagOf(p)
      ensures Last() == if k == old(|items|) - 1 then Some(p) else old(Last())
      ensures First() == old(First())
    {
      count := count + 1;
      items := items[..k + 1] + [p] + items[k + 1..];
    }

    /**
     * doublylinkedlist_insert_before: a copy of p is linked directly
     * before node k; `first` moves only when node k was the first one.
     */
    method InsertBefore(k: nat, p: Payload)
      requires Valid() && k < |items|
      modifies this
      ensures Valid()
      ensures items == old(items[..k]) + [p] + old(items[k..])
      ensures count == old(count) + 1
      ensures items[k] == p
      ensures First() == if k == 0 then Some(p) else old(First())
      ensures Last() == old(Last())
    {
      count := count + 1;
      items := items[..k] + [p] + items[k..];
    }

    /**
     * doublylinkedlist_insert_beginning: on an empty list the new node is
     * both first and last; otherwise it goes before the old first node.
     */
    method InsertBeginning(p: Payload)
      requires Valid()
      modifies this
      ensures Valid()
      ensures items == [p] + old(items)
      ensures count == old(count) + 1
      ensures First() == Some(p)
      ensures old(|items|) == 0 ==> Last() == Some(p)
      ensures old(|items|) > 0 ==> Last() == old(Last())
    {
      if |items| == 0 {
        count := count + 1;
        items := [p];
      } else {
        InsertBefore(0, p);
      }
    }

    /**
     * doublylinkedlist_insert_end: the copy becomes the new last node and
     * the earlier nodes keep their order.
     */
    method InsertEnd(p: Payload)
      requires Valid()
      modifies this
      ensures Valid()
      ensures items == old(items) + [p]
      ensures count == old(count) + 1
      ensures Last() == Some(p)
    {
      if |items| == 0 {
        InsertBeginning(p);
      } else {
        InsertAfter(|items| - 1, p);
      }
    }

    /**
     * doublylinkedlist_delete: node k is unlinked, `first`/`last` are
     * repaired at the ends, and the other nodes keep their order.
     */
    method Delete(k: nat)
      requires Valid() && k < |items|
      modifies this
      ensures Valid()
      ensures items == old(items[..k]) + old(items[k + 1..])
      ensures count == old(count) - 1
      ensures k == 0 ==> First() == if old(|items|) > 1 then Some(old(items[1])) else None
      ensures k == old(|items|) - 1 ==> Last() == if k > 0 then Some(old(items[k - 1])) else None
    {
      items := items[..k] + items[k + 1..];
      count := count - 1;
    }

    /** doublylinkedlist_remove: hands back node k's tag and a copy of its record, then deletes the node. */
    method Remove(k: nat) returns (dataType: int, data: Payload)
      requires Valid() && k < |items|
      modifies this
      ensures Valid()
      ensures data == old(items[k]) && dataType == TagOf(data)
      ensures items == old(items[..k]) + old(items[k + 1..])
      ensures count == old(count) - 1
    {
      dataType := TagOf(items[k]);
      data := items[k];
      Delete(k);
    }

    /** doublylinkedlist_empty: unlinks every node from the front, then clears `count` and `last`. */
    method Empty()
      requires Valid()
      modifies this
      ensures Valid()
      ensures items == [] && count == 0
      ensures First() == None && Last() == None
    {
      ghost var n := 0;
      while |items| > 0
        invariant 0 <= n <= |old(items)| && items == old(items)[n..]
        decreases |items|
      {
        items := items[1..];
        n := n + 1;
      }
      count := 0;
    }
  }
}
