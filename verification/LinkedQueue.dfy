/** The linked queue (src/xv_queue.c).

    `xv_queue_push` never initialises the `next` field of the node it appends, so the tail's
    `next` holds whatever the allocator left there.  `Push` takes that leftover value as an
    argument: the queue is correct for every choice of it, because `Pop` is guided by `size`.
    The mutex of the concurrent version makes each call one atomic step.
 */
module LinkedQueue {

  datatype Option<+T> = None | Some(value: T)

  class Node<T> {
    var data: T
    var next: Node?<T>

    constructor (data: T, leftover: Node?<T>)
      ensures this.data == data && this.next == leftover
    {
      this.data := data;
      this.next := leftover;
    }
  }

  class Queue<T> {
    var head: Node?<T>
    var tail: Node?<T>
    var size: int
    ghost var nodes: seq<Node<T>>   // the nodes from head to tail
    ghost var Repr: set<object>

    // The chain is well formed up to the tail; nothing is said about tail.next.
    ghost predicate Valid()
      reads this, Repr
    {
      && this in Repr && (forall n :: n in nodes ==> n in Repr)
      && size == |nodes|
      && (forall i, j :: 0 <= i < j < |nodes| ==> nodes[i] != nodes[j])
      && (forall i :: 0 <= i < |nodes| - 1 ==> nodes[i].next == nodes[i + 1])
      && if nodes == [] then head == null && tail == null
         else head == nodes[0] && tail == nodes[|nodes| - 1]
    }

    // What was pushed and not yet popped, oldest first.
    ghost function Contents(): (s: seq<T>)
      reads this, Repr
      requires Valid()
      ensures |s| == |nodes|
    {
      seq(|nodes|, i requires 0 <= i < |nodes| reads this, Repr requires Valid() => nodes[i].data)
    }

    constructor ()
      ensures Valid() && fresh(Repr) && Contents() == []
    {
      head, tail, size := null, null, 0;
      nodes := [];
      Repr := {this};
    }

    method Push(data: T, leftover: Node?<T>)
      requires Valid()
      modifies Repr
      ensures Valid() && fresh(Repr - old(Repr))
      ensures Contents() == old(Contents()) + [data]
    {
      var node := new Node(data, leftover);
      if tail != null {
        tail.next := node;
        tail := node;
      } else {
        head, tail := node, node;
      }
      size := size + 1;
      nodes := nodes + [node];
      Repr := Repr + {node};
    }

    method Pop() returns (data: Option<T>)
      requires Valid()
      modifies Repr
      ensures Valid() && fresh(Repr - old(Repr))
      ensures old(Contents()) == [] ==> data == None && Contents() == []
      ensures old(Contents()) != [] ==> data.Some? && old(Contents()) == [data.value] + Contents()
    {
      data := None;
      if size == 1 {
        data := Some(head.data);
        head, tail := null, null;
        size := size - 1;
        nodes := [];
      } else if size > 1 {
        data := Some(head.data);
        head := head.next;
        size := size - 1;
        nodes := nodes[1..];
      }
    }

    method Size() returns (n: int)
      requires Valid()
      ensures n == |Contents()|
    {
      n := size;
    }
  }
}
