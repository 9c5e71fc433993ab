/** Singly linked nodes on the heap, and the sequence that a chain of them stands for. */
module NodeChain {

  class Node<T> {
    var value: T
    var next: Node?<T>

    constructor (value: T)
      ensures this.value == value && next == null
    {
      this.value := value;
      next := null;
    }
  }

  /** The node at position i, or the null that ends the list. */
  ghost function NodeAt<T>(nodes: seq<Node<T>>, i: int): (n: Node?<T>)
    ensures n != null ==> 0 <= i < |nodes| && n == nodes[i]
  {
    if 0 <= i < |nodes| then nodes[i] else null
  }

  ghost predicate Link<T>(nodes: seq<Node<T>>, i: nat)
    requires i < |nodes|
    reads nodes
  {
    nodes[i].next == NodeAt(nodes, i + 1)
  }

  /** The nodes form a chain from first to null, and none of them occurs twice. */
  ghost predicate Chain<T>(nodes: seq<Node<T>>, first: Node?<T>)
    reads nodes
  {
    && first == NodeAt(nodes, 0)
    && (forall i :: 0 <= i < |nodes| ==> Link(nodes, i))
    && (forall i, j :: 0 <= i < j < |nodes| ==> nodes[i] != nodes[j])
  }

  ghost function Contents<T>(nodes: seq<Node<T>>): (s: seq<T>)
    reads nodes
    ensures |s| == |nodes|
    ensures forall i :: 0 <= i < |s| ==> s[i] == nodes[i].value
  {
    seq(|nodes|, i requires 0 <= i < |nodes| reads nodes => nodes[i].value)
  }
}
