/** The channel list on the heap: a singly linked list that is searched, spliced and reordered in place. */
module ChannelList {
  import opened Bytes
  import opened Channels
  import opened NodeChain

  class ChannelList {
    var head: Node?<Channel>
    ghost var nodes: seq<Node<Channel>>

    ghost predicate Valid()
      reads this, nodes
    {
      Chain(nodes, head) && Distinct(Contents(nodes))
    }

    ghost function State(): seq<Channel>
      reads this, nodes
    {
      Contents(nodes)
    }

    constructor ()
      ensures Valid() && nodes == []
    {
      head := null;
      nodes := [];
    }

    /** `_v3_update_channel`: the entry is replaced where it stands, and a new channel goes to the end. */
    method Update(c: Channel)
      requires Valid()
      modifies this, nodes
      ensures Valid() && fresh(set n | n in nodes && n !in old(nodes))
      ensures State() == Updated(old(State()), c)
    {
      hide Find, Distinct;
      ghost var was := State();
      UpdatedDistinct(was, c);
      if head == null {
        var first := new Node(c);
        head := first;
        nodes := [first];
        assert was == [] && was + [c] == [c] && State() == [c];
        assert Find(was, c.id) == 0;
        return;
      }
      var cur := head;
      var last := head;
      ghost var p: nat := 0;
      while cur != null
        invariant p <= |nodes| && cur == NodeAt(nodes, p) && Valid() && State() == was
        invariant p > 0 ==> last == nodes[p - 1]
        invariant forall j :: 0 <= j < p ==> was[j].id != c.id
        invariant nodes == old(nodes) && nodes != []
        decreases |nodes| - p
      {
        if cur.value.id == c.id {
          assert Find(was, c.id) == p;
          Replace(cur, c, p);
          return;
        }
        assert Link(nodes, p);
        last := cur;
        cur := cur.next;
        p := p + 1;
      }
      assert Find(was, c.id) == |was|;
      Append(last, c);
    }

    method Replace(cur: Node<Channel>, c: Channel, ghost p: nat)
      requires Chain(nodes, head) && p < |nodes| && cur == nodes[p]
      modifies cur`value
      ensures Chain(nodes, head) && State() == old(State())[p := c]
    {
      cur.value := c;
      forall i | 0 <= i < |nodes|
        ensures Link(nodes, i)
      {
        assert old(Link(nodes, i));
      }
    }

    method Append(last: Node<Channel>, c: Channel)
      requires Chain(nodes, head) && nodes != [] && last == nodes[|nodes| - 1]
      modifies this`nodes, last
      ensures Chain(nodes, head) && |nodes| == |old(nodes)| + 1 && nodes[..|old(nodes)|] == old(nodes)
      ensures fresh(nodes[|old(nodes)|])
      ensures State() == old(State()) + [c]
    {
      ghost var before := nodes;
      var added := new Node(c);
      label L:
      last.next := added;
      nodes := nodes + [added];
      forall i | 0 <= i < |nodes|
        ensures Link(nodes, i)
      {
        if i < |before| {
          assert old@L(Link(before, i));
        }
      }
      assert Contents(nodes) == old(Contents(nodes)) + [c];
    }

    /** `_v3_remove_channel`. */
    method Remove(id: u16) returns (removed: bool)
      requires Valid()
      modifies this, nodes
      ensures Valid() && State() == Removed(old(State()), id)
      ensures removed <==> Find(old(State()), id) < |old(State())|
      ensures forall n :: n in nodes ==> n in old(nodes)
    {
      hide Find, Distinct;
      ghost var was := State();
      RemovedDistinct(was, id);
      var cur := head;
      var last: Node?<Channel> := null;
      ghost var p: nat := 0;
      while cur != null
        invariant p <= |nodes| && cur == NodeAt(nodes, p) && last == NodeAt(nodes, p - 1) && Valid() && State() == was
        invariant forall j :: 0 <= j < p ==> was[j].id != id
        invariant nodes == old(nodes) && head == old(head)
        decreases |nodes| - p
      {
        if cur.value.id == id {
          assert Find(was, id) == p;
          Unlink(cur, last, p);
          return true;
        }
        assert Link(nodes, p);
        last := cur;
        cur := cur.next;
        p := p + 1;
      }
      assert Find(was, id) == |was|;
      return false;
    }

    method Unlink(c: Node<Channel>, last: Node?<Channel>, ghost p: nat)
      requires Chain(nodes, head) && p < |nodes| && c == nodes[p] && last == NodeAt(nodes, p - 1)
      modifies this, last
      ensures Chain(nodes, head)
      ensures nodes == old(nodes)[..p] + old(nodes)[p + 1..]
      ensures State() == old(State())[..p] + old(State())[p + 1..]
    {
      hide Contents;
      ghost var before := nodes;
      assert Link(nodes, p);
      if last == null {
        head := c.next;
      } else {
        last.next := c.next;
      }
      nodes := nodes[..p] + nodes[p + 1..];
      forall i | 0 <= i < |nodes|
        ensures Link(nodes, i)
      {
        assert old(Link(before, if i < p then i else i + 1));
      }
      assert Contents(nodes) == old(Contents(nodes))[..p] + old(Contents(nodes))[p + 1..];
    }

    /** `v3_get_channel_sort`. */
    method GetSort(left: u16, right: u16) returns (sort: int)
      requires Valid()
      ensures sort == Sort(State(), left, right)
    {
      hide Find, Distinct;
      ghost var s := State();
      var lpos, rpos, ctr := -1, -1, 0;
      var cur := head;
      while cur != null
        invariant 0 <= ctr <= |nodes| && cur == NodeAt(nodes, ctr)
        invariant lpos == if Find(s, left) < ctr then Find(s, left) else -1
        invariant rpos == if Find(s, right) < ctr then Find(s, right) else -1
        decreases |nodes| - ctr
      {
        assert s[ctr] == cur.value;
        FindUnique(s, ctr);
        if cur.value.id == left {
          lpos := ctr;
        }
        if cur.value.id == right {
          rpos := ctr;
        }
        assert Link(nodes, ctr);
        cur := cur.next;
        ctr := ctr + 1;
      }
      sort := 0;
      if lpos != -1 && rpos != -1 && lpos != rpos {
        sort := if lpos < rpos then -1 else 1;
      }
    }

    lemma HeadNode()
      requires Valid()
      ensures head == NodeAt(nodes, 0)
    {
    }

    lemma StepNode(p: nat)
      requires Valid() && p < |nodes|
      ensures nodes[p].next == NodeAt(nodes, p + 1) && State()[p] == nodes[p].value
    {
      assert Link(nodes, p);
    }

    /** The search of message 0x3b in one loop. It first looks for the target, remembering the node before it as `dest`;
        then it starts over to look for the channel. */
    method Locate(id: u16, target: u16)
      returns (cur: Node?<Channel>, last: Node?<Channel>, dest: Node?<Channel>, ghost p: nat, ghost t: nat)
      requires Valid()
      ensures cur == null ==> Find(State(), id) == |nodes| || Find(State(), target) == |nodes|
      ensures cur != null ==>
                && p < |nodes| && t < |nodes| && p == Find(State(), id) && t == Find(State(), target)
                && cur == nodes[p] && last == NodeAt(nodes, p - 1) && dest == NodeAt(nodes, t - 1)
    {
      hide Find, Distinct, Chain, Link, Contents;
      HeadNode();
      ghost var s := State();
      var found := false;
      dest, last, cur, p, t := null, null, head, 0, 0;
      while cur != null
        invariant p <= |nodes| && cur == NodeAt(nodes, p) && last == NodeAt(nodes, p - 1)
        invariant !found ==> forall j :: 0 <= j < p ==> s[j].id != target
        invariant found ==> t < |nodes| && Find(s, target) == t && dest == NodeAt(nodes, t - 1)
        invariant found ==> forall j :: 0 <= j < p ==> s[j].id != id
        decreases !found, |nodes| - p
      {
        StepNode(p);
        if !found {
          if cur.value.id != target {
            last, cur, p := cur, cur.next, p + 1;
            continue;
          }
          found := true;
          FindUnique(s, p);
          t := p;
          dest := last;
          last := null;
          cur := head;
          p := 0;
          StepNode(0);
        }
        if cur.value.id != id {
          last, cur, p := cur, cur.next, p + 1;
          continue;
        }
        FindUnique(s, p);
        return;
      }
      if !found {
        assert Find(s, target) == |s|;
      } else {
        assert Find(s, id) == |s|;
      }
    }

    /** Message 0x3b for a channel: the node is spliced in front of the target, unless it stands there already. */
    method Move(id: u16, target: u16)
      requires Valid()
      modifies this, nodes
      ensures Valid() && State() == Moved(old(State()), id, target)
      ensures forall n :: n in nodes ==> n in old(nodes)
    {
      hide Find, Distinct, MovedTo, Link;
      ghost var was := State();
      MovedDistinct(was, id, target);
      var cur, last, dest, p, t := Locate(id, target);
      if cur == null {
        return;
      }
      if cur == dest {
        assert p == t - 1;
        MovedInPlace(was, p, t);
        return;
      }
      SameNodes(nodes, p, t);
      Splice(cur, last, dest, p, t);
    }

    /** Links a node in after `dest`; null stands for the head. */
    method LinkIn(c: Node<Channel>, dest: Node?<Channel>, ghost t: nat)
      requires Chain(nodes, head) && t <= |nodes| && c !in nodes && dest == NodeAt(nodes, t - 1)
      requires dest == null ==> t == 0
      modifies this, dest, c`next
      ensures Chain(nodes, head)
      ensures nodes == old(nodes)[..t] + [c] + old(nodes)[t..]
      ensures State() == old(State())[..t] + [c.value] + old(State())[t..]
    {
      hide Contents;
      ghost var before := nodes;
      assert t > 0 ==> Link(before, t - 1);
      var after: Node?<Channel>;
      if dest == null {
        after := head;
        head := c;
      } else {
        after := dest.next;
        dest.next := c;
      }
      c.next := after;
      nodes := before[..t] + [c] + before[t..];
      forall i | 0 <= i < |nodes|
        ensures Link(nodes, i)
      {
        if i < t {
          assert old(Link(before, i));
        } else if i > t {
          assert old(Link(before, i - 1));
        }
      }
      assert Contents(nodes) == old(Contents(nodes))[..t] + [c.value] + old(Contents(nodes))[t..];
    }

    /** Unlinks the node after `last` and links it in after `dest`. */
    method Splice(c: Node<Channel>, last: Node?<Channel>, dest: Node?<Channel>, ghost i: nat, ghost t: nat)
      requires Chain(nodes, head) && i < |nodes| && t < |nodes| && c == nodes[i] && c != dest
      requires last == NodeAt(nodes, i - 1) && dest == NodeAt(nodes, t - 1)
      modifies this, nodes
      ensures Chain(nodes, head)
      ensures nodes == MovedTo(old(nodes), i, t)
      ensures State() == MovedTo(old(State()), i, t)
    {
      hide Chain, Contents;
      ghost var before, contents := nodes, State();
      ChainDistinct(nodes, head);
      Unlink(c, last, i);
      ghost var at := if i < t then t - 1 else t;
      TakenOut(before, i, t);
      LinkIn(c, dest, at);
      TakenOut(contents, i, t);
    }
  }

  lemma ChainDistinct(nodes: seq<Node<Channel>>, first: Node?<Channel>)
    requires Chain(nodes, first)
    ensures forall i, j :: 0 <= i < j < |nodes| ==> nodes[i] != nodes[j]
  {
  }

  lemma SameNodes(nodes: seq<Node<Channel>>, i: nat, t: nat)
    requires i < |nodes| && t < |nodes|
    ensures forall n :: n in MovedTo(nodes, i, t) ==> n in nodes
  {
  }

  /** Moving is taking out and putting back in. */
  lemma TakenOut<T>(s: seq<T>, i: nat, t: nat)
    requires i < |s| && t < |s|
    ensures var rest := s[..i] + s[i + 1..];
            var at := if i < t then t - 1 else t; (
              && at <= |rest|
              && MovedTo(s, i, t) == rest[..at] + [s[i]] + rest[at..]
              && (t > 0 && t - 1 != i ==> at > 0 && rest[at - 1] == s[t - 1])
              && (t == 0 ==> at == 0))
  {
    var rest := s[..i] + s[i + 1..];
    var at := if i < t then t - 1 else t;
    var r := rest[..at] + [s[i]] + rest[at..];
    forall m | 0 <= m < |s|
      ensures MovedTo(s, i, t)[m] == r[m]
    {
      if m < at {
        WithoutAt(s, i, m);
      } else if m > at {
        WithoutAt(s, i, m - 1);
      }
    }
    if t > 0 && t - 1 != i {
      WithoutAt(s, i, at - 1);
    }
  }
}
