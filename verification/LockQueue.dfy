/** The message queue: a singly linked list with head and tail pointers, as one thread runs it. */
module LockQueue {
  import opened Util

  class QNode<T> {
    const item: T
    var next: QNode?<T>

    constructor (item: T)
      ensures this.item == item && next == null
    {
      this.item := item;
      next := null;
    }
  }

  class Queue<T> {
    var head: QNode?<T>
    var tail: QNode?<T>
    ghost var nodes: seq<QNode<T>>

    /** Following `next` from head visits exactly `nodes`, each once, and ends at tail. */
    ghost predicate Valid()
      reads this, nodes
    {
      && NoDup(nodes)
      && (nodes == [] ==> head == null && tail == null)
      && (nodes != [] ==> head == nodes[0] && tail == nodes[|nodes| - 1] && nodes[|nodes| - 1].next == null)
      && forall i :: 0 <= i < |nodes| - 1 ==> nodes[i].next == nodes[i + 1]
    }

    ghost function Contents(): (r: seq<T>)
      reads this
    {
      seq(|nodes|, i requires 0 <= i < |nodes| reads this => nodes[i].item)
    }

    constructor ()
      ensures Valid() && Contents() == []
    {
      head, tail, nodes := null, null, [];
    }

    /** queue_push: fails on NULL; otherwise appends the node, which must be fresh and end a list. */
    method Push(qnode: QNode?<T>) returns (ret: int)
      requires Valid()
      requires qnode != null ==> qnode !in nodes && qnode.next == null
      modifies this, nodes
      ensures Valid()
      ensures qnode == null ==> ret == -1 && nodes == old(nodes)
      ensures qnode != null ==> ret == 0 && nodes == old(nodes) + [qnode]
      ensures qnode != null ==> Contents() == old(Contents()) + [qnode.item]
    {
      if qnode == null { return -1; }
      if head == null {
        head := qnode;
      }
      if tail == null {
        tail := qnode;
      } else {
        tail.next := qnode;
        tail := qnode;
      }
      nodes := nodes + [qnode];
      return 0;
    }

    method IsEmpty() returns (ret: bool)
      requires Valid()
      ensures ret <==> nodes == []
      ensures ret <==> Contents() == []
    {
      ret := head == null;
    }

    /** queue_pop: NULL on the empty queue, otherwise the oldest node. */
    method Pop() returns (ret: QNode?<T>)
      requires Valid()
      modifies this
      ensures Valid()
      ensures old(nodes) == [] ==> ret == null && nodes == []
      ensures old(nodes) != [] ==> ret == old(nodes)[0] && nodes == old(nodes)[1..]
      ensures old(Contents()) != [] ==>
                ret != null && ret.item == old(Contents())[0] && Contents() == old(Contents())[1..]
    {
      ret := null;
      var qtmp := head;
      if qtmp != null {
        if head == tail {
          assert |nodes| == 1 by { assert nodes[0] == nodes[|nodes| - 1]; }
          tail := null;
        }
        head := head.next;
        nodes := nodes[1..];
        ret := qtmp;
      }
    }

    /** queue_destory: pops until nothing is left, oldest first. */
    method Destroy() returns (ghost freed: seq<QNode<T>>)
      requires Valid()
      modifies this
      ensures Valid() && Contents() == [] && freed == old(nodes)
    {
      freed := [];
      var empty := IsEmpty();
      while !empty
        invariant Valid() && freed + nodes == old(nodes)
        invariant empty <==> nodes == []
        decreases |nodes|
      {
        ghost var before := nodes;
        var qtmp := Pop();
        if qtmp != null {
          assert before == [before[0]] + before[1..];
          freed := freed + [qtmp];
        }
        empty := IsEmpty();
      }
    }
  }
}
