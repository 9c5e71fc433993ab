/** The queue of events for the client: a linked list with a tail pointer and a length, and who gets woken when. */
module EventQueue {
  import opened Bytes
  import opened Options
  import opened NodeChain

  datatype Event = Event(kind: nat, channel: u16, timestamp: nat)

  class EventQueue {
    /** Whether the mutex exists; the first reader creates it. */
    var listening: bool
    var head: Node?<Event>
    var tail: Node?<Event>
    var length: nat
    ghost var nodes: seq<Node<Event>>

    ghost predicate Valid()
      reads this, nodes
    {
      && Chain(nodes, head) && tail == NodeAt(nodes, |nodes| - 1) && length == |nodes|
      && (!listening ==> nodes == [])
    }

    ghost function Queue(): seq<Event>
      reads this, nodes
    {
      Contents(nodes)
    }

    constructor ()
      ensures Valid() && nodes == [] && !listening
    {
      listening, head, tail, length, nodes := false, null, null, 0, [];
    }

    /** Before the first read events are dropped; without the channel list every event belongs to the lobby. */
    method Enqueue(ev: Node<Event>, seesChannels: bool, now: nat) returns (signal: bool)
      requires Valid() && ev !in nodes
      modifies this, tail, ev
      ensures Valid() && listening == old(listening)
      ensures !listening ==> Queue() == []
      ensures listening ==> (
                var e := old(ev.value);
                Queue() == old(Queue()) + [Event(e.kind, if seesChannels then e.channel else 0, now)])
      ensures signal <==> listening && old(Queue()) == []
    {
      if !listening {
        return false;
      }
      ev.value := Stamped(ev.value, seesChannels, now);
      ev.next := null;
      ghost var before := nodes;
      label L:
      if tail == null {
        head, tail, length, nodes := ev, ev, 1, [ev];
        return true;
      }
      tail.next := ev;
      tail := ev;
      length := length + 1;
      nodes := nodes + [ev];
      forall i | 0 <= i < |nodes|
        ensures Link(nodes, i)
      {
        if i < |before| {
          assert old(Link(before, i));
        }
      }
      return false;
    }

    /** `None` stands for an empty queue: a non-blocking reader returns, a blocking one waits for the signal. */
    method Dequeue() returns (ev: Option<Event>)
      requires Valid()
      modifies this
      ensures Valid() && listening
      ensures (ev, Queue()) == if old(Queue()) == [] then (None, []) else (Some(old(Queue())[0]), old(Queue())[1..])
    {
      listening := true;
      if head == null {
        return None;
      }
      ev := Some(head.value);
      assert Link(nodes, 0);
      ghost var before := nodes;
      head := head.next;
      if head == null {
        tail := null;
      }
      length := length - 1;
      nodes := nodes[1..];
      forall i | 0 <= i < |nodes|
        ensures Link(nodes, i)
      {
        assert old(Link(before, i + 1));
      }
      assert Contents(nodes) == old(Contents(nodes))[1..];
    }

    /** The slow walk to the end, which the tail pointer replaces. */
    method GetLast() returns (ev: Node?<Event>, len: nat)
      requires Valid()
      ensures ev == tail && (head != null ==> len == length - 1)
    {
      len := 0;
      ev := head;
      if head == null {
        return;
      }
      assert Link(nodes, 0);
      while ev.next != null
        invariant ev == NodeAt(nodes, len) && ev != null
        decreases |nodes| - len
      {
        assert Link(nodes, len);
        len := len + 1;
        ev := ev.next;
      }
      assert Link(nodes, len);
    }

    method Clear()
      requires Valid()
      modifies this
      ensures Valid() && listening == old(listening) && Queue() == []
    {
      if !listening {
        return;
      }
      ghost var p: nat := 0;
      while head != null
        invariant p <= |nodes| && head == NodeAt(nodes, p) && nodes == old(nodes)
        invariant forall i :: 0 <= i < |nodes| ==> Link(nodes, i)
        invariant listening
        decreases |nodes| - p
      {
        assert Link(nodes, p);
        head := head.next;
        p := p + 1;
      }
      tail, length, nodes := null, 0, [];
    }
  }

  function Stamped(e: Event, seesChannels: bool, now: nat): Event {
    Event(e.kind, if seesChannels then e.channel else 0, now)
  }

  // ----- producers, waiting readers and the condition variable

  /** A reader is outside the wait, in it, or has been woken in it and has yet to take the mutex again. */
  datatype Reader = Outside | Parked | Woken

  datatype System = System(queue: seq<Event>, readers: seq<Reader>)

  /** One step under the mutex. `woken` is the reader a signal reaches; `Stir` is a wake-up without a signal. */
  datatype Step = Put(event: Event, woken: nat) | Read(reader: nat) | Poll | Clear | Stir(reader: nat)

  /** A signal reaches a parked reader whenever there is one. */
  predicate Possible(s: System, step: Step) {
    match step
    case Put(_, w) =>
      s.queue == [] && Parked in s.readers ==> w < |s.readers| && s.readers[w] == Parked
    case Read(r) => r < |s.readers| && s.readers[r] != Parked
    case Stir(r) => r < |s.readers| && s.readers[r] == Parked
    case _ => true
  }

  function After(s: System, step: Step): System
    requires Possible(s, step)
  {
    match step
    case Put(e, w) =>
      System(s.queue + [e], if s.queue == [] && Parked in s.readers then s.readers[w := Woken] else s.readers)
    case Read(r) =>
      if s.queue == [] then s.(readers := s.readers[r := Parked])
      else System(s.queue[1..], s.readers[r := Outside])
    case Poll => if s.queue == [] then s else s.(queue := s.queue[1..])
    case Clear => s.(queue := [])
    case Stir(r) => s.(readers := s.readers[r := Woken])
  }

  predicate Runs(s: System, steps: seq<Step>)
    decreases |steps|
  {
    steps == [] || (Possible(s, steps[0]) && Runs(After(s, steps[0]), steps[1..]))
  }

  function Final(s: System, steps: seq<Step>): System
    requires Runs(s, steps)
    decreases |steps|
  {
    if steps == [] then s else Final(After(s, steps[0]), steps[1..])
  }

  /** Everything put, and everything handed out, in order. */
  function Puts(steps: seq<Step>): seq<Event> {
    if steps == [] then [] else PutBy(steps[0]) + Puts(steps[1..])
  }

  function PutBy(step: Step): seq<Event> {
    if step.Put? then [step.event] else []
  }

  function GotBy(s: System, step: Step): seq<Event> {
    if (step.Read? || step.Poll?) && s.queue != [] then [s.queue[0]] else []
  }

  function Gots(s: System, steps: seq<Step>): seq<Event>
    requires Runs(s, steps)
    decreases |steps|
  {
    if steps == [] then [] else GotBy(s, steps[0]) + Gots(After(s, steps[0]), steps[1..])
  }

  function Idle(readers: nat): System {
    System([], seq(readers, i => Outside))
  }

  predicate Stuck(s: System) {
    s.queue != [] && Parked in s.readers && Woken !in s.readers
  }

  /** Between two clears the queue is first in, first out, for any number of producers and readers. */
  lemma {:induction false} FirstInFirstOut(s: System, steps: seq<Step>)
    requires Runs(s, steps) && Clear !in steps
    ensures Gots(s, steps) + Final(s, steps).queue == s.queue + Puts(steps)
    decreases |steps|
  {
    hide After, Possible, PutBy, GotBy;
    if steps == [] {
      assert [] + s.queue == s.queue + [];
    } else {
      var next := After(s, steps[0]);
      FirstInFirstOut(next, steps[1..]);
      OneStep(s, steps[0]);
      Regroup(GotBy(s, steps[0]), Gots(next, steps[1..]), Final(next, steps[1..]).queue, next.queue,
              Puts(steps[1..]), s.queue, PutBy(steps[0]));
    }
  }

  lemma OneStep(s: System, step: Step)
    requires Possible(s, step) && step != Clear
    ensures GotBy(s, step) + After(s, step).queue == s.queue + PutBy(step)
  {
  }

  lemma Regroup<T>(got: seq<T>, gots: seq<T>, end: seq<T>, mid: seq<T>, puts: seq<T>, start: seq<T>, put: seq<T>)
    requires gots + end == mid + puts && got + mid == start + put
    ensures (got + gots) + end == start + (put + puts)
  {
    assert (got + gots) + end == got + (gots + end);
    assert got + (mid + puts) == (got + mid) + puts;
    assert (start + put) + puts == start + (put + puts);
  }

  lemma {:induction false} OneReaderKept(s: System, steps: seq<Step>)
    requires Runs(s, steps) && |s.readers| == 1 && (s.readers[0] == Parked ==> s.queue == [])
    ensures |Final(s, steps).readers| == 1
    ensures Final(s, steps).readers[0] == Parked ==> Final(s, steps).queue == []
    decreases |steps|
  {
    if steps != [] {
      OneReaderKept(After(s, steps[0]), steps[1..]);
    }
  }

  lemma {:induction false} ReadersStay(s: System, steps: seq<Step>)
    requires Runs(s, steps)
    ensures |Final(s, steps).readers| == |s.readers|
    decreases |steps|
  {
    if steps != [] {
      ReadersStay(After(s, steps[0]), steps[1..]);
    }
  }

  lemma RunCons(s: System, step: Step, steps: seq<Step>)
    requires Possible(s, step) && Runs(After(s, step), steps)
    ensures Runs(s, [step] + steps) && Final(s, [step] + steps) == Final(After(s, step), steps)
  {
    assert ([step] + steps)[1..] == steps;
  }

  lemma SecondReaderStuck(readers: nat, e: Event)
    requires 2 <= readers
    ensures (
      var steps := [Read(0)] + ([Read(1)] + ([Put(e, 0)] + ([Put(e, 0)] + ([Read(0)] + []))));
      Runs(Idle(readers), steps) && Stuck(Final(Idle(readers), steps)))
  {
    hide Runs, Final;
    var s := Idle(readers);
    var s1 := After(s, Read(0));
    var s2 := After(s1, Read(1));
    assert s2.readers[0] == Parked;
    var s3 := After(s2, Put(e, 0));
    var s4 := After(s3, Put(e, 0));
    var s5 := After(s4, Read(0));
    assert s5.readers[1] == Parked;
    assert s5.queue == [e] && Woken !in s5.readers;
    NothingRuns(s5);
    RunCons(s4, Read(0), []);
    RunCons(s3, Put(e, 0), [Read(0)] + []);
    RunCons(s2, Put(e, 0), [Put(e, 0)] + ([Read(0)] + []));
    RunCons(s1, Read(1), [Put(e, 0)] + ([Put(e, 0)] + ([Read(0)] + [])));
    RunCons(s, Read(0), [Read(1)] + ([Put(e, 0)] + ([Put(e, 0)] + ([Read(0)] + []))));
  }

  lemma NothingRuns(s: System)
    ensures Runs(s, []) && Final(s, []) == s
  {
  }

  /**
   * Only the first event put into an empty queue signals. That is enough exactly for one blocking reader: with two or
   * more, a run leaves one parked while events wait and no wake-up is on its way.
   */
  lemma OneSignalSuffices(readers: nat)
    ensures (forall steps | Runs(Idle(readers), steps) :: !Stuck(Final(Idle(readers), steps))) <==> readers <= 1
  {
    if readers <= 1 {
      forall steps | Runs(Idle(readers), steps)
        ensures !Stuck(Final(Idle(readers), steps))
      {
        if readers == 1 {
          OneReaderKept(Idle(1), steps);
        } else {
          ReadersStay(Idle(0), steps);
        }
      }
    } else {
      SecondReaderStuck(readers, Event(0, 0, 0));
    }
  }
}
