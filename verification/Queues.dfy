/** The two linked queues of the program. Each keeps its nodes in a ghost sequence, from which
    reachability, acyclicity and the position of the tail can be read off. */
module Queues {
  import opened Basics
  import opened Processes

  // ---------- the ready queue of round robin, with a size ----------

  class QueueNode {
    const process: Process
    var next: QueueNode?

    constructor (process: Process)
      ensures this.process == process && next == null
    {
      this.process := process;
      next := null;
    }
  }

  class Queue {
    var head: QueueNode?
    var tail: QueueNode?
    var size: int
    ghost var spine: seq<QueueNode>

    static ghost function NodeAt(nodes: seq<QueueNode>, i: nat): QueueNode? {
      if i < |nodes| then nodes[i] else null
    }

    /** The processes the nodes point to, in order. */
    static ghost function Line(nodes: seq<QueueNode>): (c: seq<Process>)
      ensures |c| == |nodes| && forall i :: 0 <= i < |c| ==> c[i] == nodes[i].process
    {
      seq(|nodes|, i requires 0 <= i < |nodes| => nodes[i].process)
    }

    ghost predicate Valid()
      reads this, spine
    {
      && size == |spine| && Distinct(spine)
      && head == NodeAt(spine, 0)
      && tail == (if |spine| == 0 then null else spine[|spine| - 1])
      && forall i :: 0 <= i < |spine| ==> spine[i].next == NodeAt(spine, i + 1)
    }

    /** The abstract value: the processes from the front to the back. */
    ghost function Contents(): (c: seq<Process>)
      reads this
      ensures |c| == |spine| && forall i :: 0 <= i < |c| ==> c[i] == spine[i].process
    {
      Line(spine)
    }

    constructor ()
      ensures Valid() && Contents() == [] && spine == []
    {
      head := null;
      tail := null;
      size := 0;
      spine := [];
    }

    method Enqueue(p: Process)
      requires Valid()
      modifies this, spine
      ensures Valid() && Contents() == old(Contents()) + [p]
      ensures |spine| == |old(spine)| + 1 && old(spine) <= spine && fresh(spine[|spine| - 1])
    {
      var node := new QueueNode(p);
      if tail == null {
        head := node;
        tail := node;
      } else {
        tail.next := node;
        tail := node;
      }
      size := size + 1;
      spine := spine + [node];
    }

    method Dequeue() returns (p: Process?)
      requires Valid()
      modifies this
      ensures Valid()
      ensures p == if |old(spine)| == 0 then null else old(Contents())[0]
      ensures spine == if |old(spine)| == 0 then [] else old(spine)[1..]
      ensures Contents() == if |old(spine)| == 0 then [] else old(Contents())[1..]
    {
      if head == null {
        return null;
      }
      var node := head;
      assert node == spine[0];
      p := node.process;
      head := node.next;
      if head == null {
        tail := null;
      }
      size := size - 1;
      spine := spine[1..];
    }

    method IsEmpty() returns (empty: bool)
      requires Valid()
      ensures empty <==> Contents() == []
    {
      empty := size == 0;
    }

    /** Takes out every process; the loop ends because each round shortens the queue. */
    method Free()
      requires Valid()
      modifies this
      ensures Valid() && Contents() == [] && head == null && tail == null && size == 0
    {
      var empty := IsEmpty();
      while !empty
        invariant Valid() && (empty <==> Contents() == [])
        decreases |spine|
      {
        var p := Dequeue();
        empty := IsEmpty();
      }
    }
  }

  // ---------- one level of the multi-level queue, with its parameters ----------

  class MlfqNode {
    const process: Process
    var next: MlfqNode?

    constructor (process: Process)
      ensures this.process == process && next == null
    {
      this.process := process;
      next := null;
    }
  }

  class MlfqQueue {
    var head: MlfqNode?
    var tail: MlfqNode?
    const quantum: int
    const allotment: int
    ghost var spine: seq<MlfqNode>

    static ghost function NodeAt(nodes: seq<MlfqNode>, i: nat): MlfqNode? {
      if i < |nodes| then nodes[i] else null
    }

    static ghost function Line(nodes: seq<MlfqNode>): (c: seq<Process>)
      ensures |c| == |nodes| && forall i :: 0 <= i < |c| ==> c[i] == nodes[i].process
    {
      seq(|nodes|, i requires 0 <= i < |nodes| => nodes[i].process)
    }

    ghost predicate Valid()
      reads this, spine
    {
      && Distinct(spine)
      && head == NodeAt(spine, 0)
      && tail == (if |spine| == 0 then null else spine[|spine| - 1])
      && forall i :: 0 <= i < |spine| ==> spine[i].next == NodeAt(spine, i + 1)
    }

    ghost function Contents(): (c: seq<Process>)
      reads this
      ensures |c| == |spine| && forall i :: 0 <= i < |c| ==> c[i] == spine[i].process
    {
      Line(spine)
    }

    twostate lemma StaysValid()
      requires old(Valid()) && unchanged(this) && forall i :: 0 <= i < |spine| ==> unchanged(spine[i])
      ensures Valid() && Contents() == old(Contents())
    {
    }

    constructor (quantum: int, allotment: int)
      ensures Valid() && Contents() == [] && spine == []
      ensures this.quantum == quantum && this.allotment == allotment
    {
      head := null;
      tail := null;
      this.quantum := quantum;
      this.allotment := allotment;
      spine := [];
    }

    method Enqueue(p: Process)
      requires Valid()
      modifies this, spine
      ensures Valid() && Contents() == old(Contents()) + [p]
      ensures |spine| == |old(spine)| + 1 && old(spine) <= spine && fresh(spine[|spine| - 1])
    {
      var node := new MlfqNode(p);
      if tail == null {
        head := node;
        tail := node;
      } else {
        tail.next := node;
        tail := node;
      }
      spine := spine + [node];
    }

    method Dequeue() returns (p: Process?)
      requires Valid()
      modifies this
      ensures Valid()
      ensures p == if |old(spine)| == 0 then null else old(Contents())[0]
      ensures spine == if |old(spine)| == 0 then [] else old(spine)[1..]
      ensures Contents() == if |old(spine)| == 0 then [] else old(Contents())[1..]
    {
      if head == null {
        return null;
      }
      var node := head;
      assert node == spine[0];
      p := node.process;
      head := node.next;
      if head == null {
        tail := null;
      }
      spine := spine[1..];
    }
  }
}
