/** Order of the chunks over every interleaving: what is sent is a subsequence of what was captured. */
module CaptureOrder {
  import opened VoxGate
  import opened CaptureSystem

  /** The chunks a transmitter has sent. */
  function Sent(log: seq<Call>, who: Who): seq<Chunk> {
    if log == [] then []
    else
      var last := log[|log| - 1];
      Sent(log[..|log| - 1], who) + (if last.SendPCM? && last.who == who then [last.chunk] else [])
  }

  function PreRoll(s: State, who: Who): seq<Chunk> {
    if who.Vox? then Chunks(s.gate.preroll) else []
  }

  function Working(w: Work, who: Who): seq<Chunk> {
    if w.Busy? && w.who == who && !w.delivered then [w.packet.chunk] else []
  }

  function Queued(queue: seq<Task>, who: Who): seq<Chunk> {
    if queue == [] then []
    else
      var last := queue[|queue| - 1];
      Queued(queue[..|queue| - 1], who) + (if last.Deliver? && last.who == who then [last.packet.chunk] else [])
  }

  function Tapped(side: Side): seq<Chunk> {
    if side.inflight.Some? then [side.inflight.value.chunk] else []
  }

  /** Every chunk that is somewhere, in the order of the pipeline. */
  function Trail(s: State, who: Who): seq<Chunk> {
    Sent(s.log, who) + PreRoll(s, who) + Working(s.work, who) + Queued(s.queue, who) + Tapped(s.Of(who))
  }

  /** The chunks stand in the order of their capture, without repetition. */
  predicate Subsequence(part: seq<Chunk>, whole: seq<Chunk>) {
    && (forall i :: 0 <= i < |part| ==> part[i].id < |whole| && whole[part[i].id] == part[i])
    && (forall i, j :: 0 <= i < j < |part| ==> part[i].id < part[j].id)
  }

  predicate Ordered(s: State, who: Who) {
    Subsequence(Trail(s, who), s.Of(who).captured)
  }

  predicate OpenIsEmpty(g: Gate) {
    g.isOpen ==> g.preroll == []
  }

  ghost predicate InOrder(s: State) {
    Ordered(s, Ptt) && Ordered(s, Vox) && OpenIsEmpty(s.gate)
  }

  // ----- sequences

  lemma DropMiddle(a: seq<Chunk>, b: seq<Chunk>, c: seq<Chunk>, whole: seq<Chunk>)
    requires Subsequence(a + b + c, whole)
    ensures Subsequence(a + c, whole)
  {
    var big, small := a + b + c, a + c;
    forall i | 0 <= i < |small|
      ensures small[i] == big[if i < |a| then i else i + |b|]
    {
    }
    forall i, j | 0 <= i < j < |small|
      ensures small[i].id < small[j].id
    {
      assert big[if i < |a| then i else i + |b|].id < big[if j < |a| then j else j + |b|].id;
    }
  }

  lemma Capture(part: seq<Chunk>, whole: seq<Chunk>, c: Chunk)
    requires Subsequence(part, whole) && c.id == |whole|
    ensures Subsequence(part + [c], whole + [c])
  {
  }

  lemma {:induction false} QueuedFirst(queue: seq<Task>, who: Who)
    requires queue != []
    ensures queue[0].Deliver? && queue[0].who == who ==>
              Queued(queue, who) == [queue[0].packet.chunk] + Queued(queue[1..], who)
    ensures !(queue[0].Deliver? && queue[0].who == who) ==> Queued(queue, who) == Queued(queue[1..], who)
    decreases |queue|
  {
    var n := |queue| - 1;
    if n > 0 {
      QueuedFirst(queue[..n], who);
      assert queue[..n][1..] == queue[1..][..n - 1];
    }
  }

  lemma QueuedSnoc(queue: seq<Task>, task: Task, who: Who)
    ensures task.Deliver? && task.who == who ==> Queued(queue + [task], who) == Queued(queue, who) + [task.packet.chunk]
    ensures !(task.Deliver? && task.who == who) ==> Queued(queue + [task], who) == Queued(queue, who)
  {
    assert (queue + [task])[..|queue|] == queue;
  }

  lemma SentSnoc(log: seq<Call>, call: Call, who: Who)
    ensures call.SendPCM? && call.who == who ==> Sent(log + [call], who) == Sent(log, who) + [call.chunk]
    ensures !(call.SendPCM? && call.who == who) ==> Sent(log + [call], who) == Sent(log, who)
  {
    assert (log + [call])[..|log|] == log;
  }

  lemma {:induction false} SentMany(log: seq<Call>, sender: Who, chunks: seq<Chunk>, who: Who)
    ensures Sent(log + Sends(sender, chunks), who) == if sender == who then Sent(log, who) + chunks else Sent(log, who)
  {
    hide Sent;
    if chunks == [] {
      assert log + Sends(sender, chunks) == log;
    } else {
      var n := |chunks| - 1;
      SentMany(log, sender, chunks[..n], who);
      assert log + Sends(sender, chunks) == log + Sends(sender, chunks[..n]) + [SendPCM(sender, chunks[n])];
      SentSnoc(log + Sends(sender, chunks[..n]), SendPCM(sender, chunks[n]), who);
    }
  }

  /** A step that leaves four parts of the trail alone and drops the pre-roll. */
  lemma DropHeld(s: State, t: State, who: Who)
    requires Ordered(s, who) && t.Of(who).captured == s.Of(who).captured
    requires Sent(t.log, who) == Sent(s.log, who) && t.work == s.work && Queued(t.queue, who) == Queued(s.queue, who)
    requires t.Of(who).inflight == s.Of(who).inflight
    requires PreRoll(t, who) == PreRoll(s, who) || PreRoll(t, who) == []
    ensures Ordered(t, who)
  {
    hide Sent, PreRoll, Queued, Subsequence;
    var rest := Working(s.work, who) + Queued(s.queue, who) + Tapped(s.Of(who));
    assert Trail(s, who) == Sent(s.log, who) + PreRoll(s, who) + rest;
    if PreRoll(t, who) == [] {
      DropMiddle(Sent(s.log, who), PreRoll(s, who), rest, s.Of(who).captured);
      assert Trail(t, who) == Sent(s.log, who) + rest;
    }
  }

  lemma SameTrail(s: State, t: State, who: Who)
    requires Ordered(s, who) && t.Of(who).captured == s.Of(who).captured && t.Of(who).inflight == s.Of(who).inflight
    requires t.log == s.log && t.gate == s.gate && t.work == s.work && Queued(t.queue, who) == Queued(s.queue, who)
    ensures Ordered(t, who)
  {
    hide Sent, Queued, Subsequence;
  }

  // ----- preservation

  lemma OrderedPressStart(s: State, who: Who, microphone: bool, w: Who)
    requires Ordered(s, w)
    ensures Ordered(DoPressStart(s, who, microphone), w)
  {
    hide Queued, Ordered;
    QueuedSnoc(s.queue, Start(who), w);
    SameTrail(s, DoPressStart(s, who, microphone), w);
  }

  lemma OrderedPressStop(s: State, who: Who, w: Who)
    requires Ordered(s, w)
    ensures Ordered(DoPressStop(s, who), w)
  {
    hide Queued, Ordered;
    SameTrail(s, DoPressStop(s, who), w);
  }

  lemma OrderedQueueStop(s: State, w: Who)
    requires Ordered(s, w)
    ensures Ordered(DoQueueStop(s), w)
  {
    hide Queued, Ordered;
    if s.stopping.Some? {
      QueuedSnoc(s.queue, Stop(s.stopping.value), w);
      SameTrail(s, DoQueueStop(s), w);
    }
  }

  lemma OrderedEnqueue(s: State, task: Task, w: Who)
    requires Ordered(s, w) && !task.Deliver?
    ensures Ordered(s.(queue := s.queue + [task]), w)
  {
    hide Queued, Ordered;
    QueuedSnoc(s.queue, task, w);
    SameTrail(s, s.(queue := s.queue + [task]), w);
  }

  lemma OrderedHop(s: State, w: Who)
    requires Ordered(s, w)
    ensures Ordered(DoHop(s), w)
  {
    hide Ordered, Queued;
    SameTrail(s, DoHop(s), w);
  }

  lemma OrderedTap(s: State, who: Who, samples: nat, rate: nat, level: real, w: Who)
    requires Ordered(s, w)
    ensures Ordered(DoTap(s, who, samples, rate, level), w)
  {
    hide Sent, Subsequence, Queued;
    var t := DoTap(s, who, samples, rate, level);
    if t.Of(who).inflight.Some? && t.Of(who).inflight != s.Of(who).inflight && who == w {
      var c := t.Of(who).inflight.value.chunk;
      Capture(Trail(s, who), s.Of(who).captured, c);
      var front := Sent(s.log, w) + PreRoll(s, w) + Working(s.work, w) + Queued(s.queue, w);
      assert PreRoll(t, w) == PreRoll(s, w);
      assert front + [] == front;
      assert Trail(t, who) == Trail(s, who) + [c];
    } else {
      SameTrail(s, t, w);
    }
  }

  lemma OrderedTapEnqueue(s: State, who: Who, w: Who)
    requires Ordered(s, w)
    ensures Ordered(DoTapEnqueue(s, who), w)
  {
    hide Sent, Subsequence, Queued;
    var side := s.Of(who);
    var t := DoTapEnqueue(s, who);
    if side.inflight.Some? && who == w {
      var c := side.inflight.value.chunk;
      QueuedSnoc(s.queue, Deliver(who, side.inflight.value), w);
      var front := Sent(s.log, w) + PreRoll(s, w) + Working(s.work, w);
      assert PreRoll(t, w) == PreRoll(s, w);
      assert front + (Queued(s.queue, w) + [c]) + [] == front + Queued(s.queue, w) + [c];
    } else if side.inflight.Some? {
      QueuedSnoc(s.queue, Deliver(who, side.inflight.value), w);
      SameTrail(s, t, w);
    }
  }

  lemma OrderedGiveBack(s: State, w: Who)
    requires Ordered(s, w) && s.work.Busy? && s.work.delivered
    ensures Ordered(RunDelivery(s), w)
  {
    hide Sent, Subsequence, Queued;
    assert PreRoll(RunDelivery(s), w) == PreRoll(s, w);
    assert Working(RunDelivery(s).work, w) == Working(s.work, w);
  }

  lemma OrderedCheck(s: State, ok: bool, recent: bool, w: Who)
    requires Ordered(s, w) && s.work.Free? && s.queue != [] && s.queue[0].Deliver?
    ensures Ordered(DoWorker(s, ok, recent), w)
  {
    hide Sent, Subsequence, Queued;
    var t := DoWorker(s, ok, recent);
    QueuedFirst(s.queue, w);
    assert PreRoll(t, w) == PreRoll(s, w);
    var front := Sent(s.log, w) + PreRoll(s, w);
    if s.queue[0].who == w {
      var c := s.queue[0].packet.chunk;
      assert front + [] + ([c] + Queued(t.queue, w)) == front + [c] + Queued(t.queue, w);
    }
    assert Trail(t, w) == Trail(s, w);
  }

  /** Start, stop, mute and tune tasks move no chunk; they may drop the pre-roll. */
  lemma OrderedTask(s: State, ok: bool, recent: bool, w: Who)
    requires Ordered(s, w) && s.work.Free? && s.queue != [] && !s.queue[0].Deliver?
    ensures Ordered(DoWorker(s, ok, recent), w)
  {
    hide Queued, Subsequence, Ordered, Sent;
    QueuedFirst(s.queue, w);
    var t := DoWorker(s, ok, recent);
    TaskLog(s.(queue := s.queue[1..]), s.queue[0], ok, recent, w);
    DropHeld(s, t, w);
  }

  lemma TaskLog(s: State, task: Task, ok: bool, recent: bool, w: Who)
    requires !task.Deliver?
    ensures var t := RunTask(s, task, ok, recent); (
              && Sent(t.log, w) == Sent(s.log, w)
              && (PreRoll(t, w) == PreRoll(s, w) || PreRoll(t, w) == [])
              && (OpenIsEmpty(s.gate) ==> OpenIsEmpty(t.gate))
              && t.work == s.work && t.queue == s.queue
              && t.Of(w).inflight == s.Of(w).inflight && t.Of(w).captured == s.Of(w).captured)
  {
    hide Sent;
    SentSnoc(s.log, StopTransmit(Ptt), w);
    SentSnoc(s.log, StopTransmit(Vox), w);
    SentSnoc(s.log, Began(Vox), w);
    SentSnoc(s.log, Began(Ptt), w);
    SentSnoc(s.log + [Began(Ptt)], StartTransmit(Ptt), w);
  }

  // ----- the gate

  /** A chunk through the gate: of the chunks held and the new one a suffix remains. It is still held, or sent, or
      dropped. */
  lemma GateOrder(g: Gate, c: Chunk) returns (k: nat)
    requires OpenIsEmpty(g)
    ensures k <= |g.preroll| + 1
    ensures OpenIsEmpty(Next(g, c).gate)
    ensures var next := Next(g, c); var kept := (Chunks(g.preroll) + [c])[k..]; (
              match next.action
              case Idle => Chunks(next.gate.preroll) == kept || Chunks(next.gate.preroll) == []
              case Open(flush) => flush == kept && next.gate.preroll == []
              case Transmit(d) => d == c && g.preroll == next.gate.preroll == []
              case Close => next.gate.preroll == [])
  {
    hide Chunk.DurMs, Prune, Chunks;
    if !g.muted && !g.isOpen {
      var now := g.clockMs + c.DurMs();
      var kept := Prune(g.preroll + [Held(c, now)], now, g.config.preRollMs);
      k := |g.preroll| + 1 - |kept|;
      KeptSuffix(g.preroll, Held(c, now), now, g.config.preRollMs);
      assert Next(g, c).gate.preroll == if c.level < g.config.openThreshold then kept else [];
    } else {
      k := 0;
      assert Next(g, c).gate.preroll == [];
    }
  }

  lemma KeptSuffix(held: seq<Held>, last: Held, clockMs: real, limit: real)
    ensures var kept := Prune(held + [last], clockMs, limit);
            Chunks(kept) == (Chunks(held) + [last.chunk])[|held| + 1 - |kept|..]
  {
    hide Prune;
    assert Chunks(held + [last]) == Chunks(held) + [last.chunk];
  }

  lemma DropFront(a: seq<Chunk>, b: seq<Chunk>, k: nat, c: seq<Chunk>, whole: seq<Chunk>)
    requires Subsequence(a + b + c, whole) && k <= |b|
    ensures Subsequence(a + b[k..] + c, whole)
  {
    hide Subsequence;
    assert a + b + c == a + b[..k] + (b[k..] + c);
    DropMiddle(a, b[..k], b[k..] + c, whole);
    assert a + (b[k..] + c) == a + b[k..] + c;
  }

  /** Delivering a chunk, or dropping it because its session is over. */
  lemma OrderedDeliver(s: State, w: Who)
    requires Ordered(s, w) && OpenIsEmpty(s.gate) && s.work.Busy? && !s.work.delivered
    ensures Ordered(RunDelivery(s), w) && OpenIsEmpty(RunDelivery(s).gate)
  {
    hide Sent, Subsequence, Queued, RunGate, Ordered;
    var who, c := s.work.who, s.work.packet.chunk;
    var t := s.(work := s.work.(delivered := true));
    if !s.work.go {
      DropWorking(s, t, w);
    } else if who.Ptt? {
      SentSnoc(s.log, SendPCM(Ptt, c), w);
      if w.Ptt? {
        PttDelivered(s, RunDelivery(s), c);
      } else {
        OtherDelivered(s, RunDelivery(s), w);
      }
    } else {
      GateDelivered(s, t, c, w);
    }
  }

  lemma DropWorking(s: State, t: State, w: Who)
    requires Ordered(s, w) && s.work.Busy? && t == s.(work := s.work.(delivered := true))
    ensures Ordered(t, w)
  {
    hide Sent, Subsequence, Queued;
    var a, b, c := Sent(s.log, w) + PreRoll(s, w), Working(s.work, w), Queued(s.queue, w) + Tapped(s.Of(w));
    assert Trail(s, w) == a + b + c;
    DropMiddle(a, b, c, s.Of(w).captured);
    assert PreRoll(t, w) == PreRoll(s, w);
    assert Trail(t, w) == a + c;
  }

  lemma PttDelivered(s: State, t: State, c: Chunk)
    requires Ordered(s, Ptt) && Working(s.work, Ptt) == [c] && Working(t.work, Ptt) == []
    requires Sent(t.log, Ptt) == Sent(s.log, Ptt) + [c]
    requires t.queue == s.queue && t.ptt == s.ptt
    ensures Ordered(t, Ptt)
  {
    hide Sent, Subsequence, Queued;
    assert Trail(t, Ptt) == Trail(s, Ptt);
  }

  /** Work for the other transmitter. */
  lemma OtherDelivered(s: State, t: State, w: Who)
    requires Ordered(s, w) && Working(s.work, w) == Working(t.work, w) == []
    requires Sent(t.log, w) == Sent(s.log, w) && PreRoll(t, w) == PreRoll(s, w)
    requires t.queue == s.queue && t.Of(w) == s.Of(w)
    ensures Ordered(t, w)
  {
    hide Sent, Subsequence, Queued;
  }

  lemma GateDelivered(s: State, t: State, c: Chunk, w: Who)
    requires Ordered(s, w) && OpenIsEmpty(s.gate)
    requires s.work.Busy? && !s.work.delivered && s.work.who == Vox && s.work.packet.chunk == c
    requires t == s.(work := s.work.(delivered := true))
    ensures Ordered(RunGate(t, c), w) && OpenIsEmpty(RunGate(t, c).gate)
  {
    hide Sent, Subsequence, Queued, Next, Ordered;
    var k := GateOrder(s.gate, c);
    var r := RunGate(t, c);
    GateLog(t, c, w);
    if w.Ptt? {
      OtherDelivered(s, r, w);
    } else {
      VoxDelivered(s, r, c, k);
    }
  }

  lemma GateLog(s: State, c: Chunk, w: Who)
    ensures var r := RunGate(s, c); (
              && r.queue == s.queue && r.work == s.work && r.ptt == s.ptt && r.vox == s.vox
              && r.gate == Next(s.gate, c).gate
              && Sent(r.log, w)
              == if w.Ptt? then Sent(s.log, w)
                 else match Next(s.gate, c).action
                   case Idle => Sent(s.log, w)
                   case Open(flush) => Sent(s.log, w) + flush
                   case Transmit(d) => Sent(s.log, w) + [d]
                   case Close => Sent(s.log, w))
  {
    hide Sent, Next;
    match Next(s.gate, c).action
    case Idle =>
    case Open(flush) =>
      SentSnoc(s.log, StartTransmit(Vox), w);
      SentMany(s.log + [StartTransmit(Vox)], Vox, flush, w);
    case Transmit(d) => SentSnoc(s.log, SendPCM(Vox, d), w);
    case Close => SentSnoc(s.log, StopTransmit(Vox), w);
  }

  lemma VoxDelivered(s: State, r: State, c: Chunk, k: nat)
    requires Ordered(s, Vox) && Working(s.work, Vox) == [c] && Working(r.work, Vox) == []
    requires r.queue == s.queue && r.vox == s.vox && k <= |s.gate.preroll| + 1
    requires var kept := (Chunks(s.gate.preroll) + [c])[k..]; (
               || (Sent(r.log, Vox) == Sent(s.log, Vox)
                   && (Chunks(r.gate.preroll) == kept || Chunks(r.gate.preroll) == []))
               || (Sent(r.log, Vox) == Sent(s.log, Vox) + kept && Chunks(r.gate.preroll) == [])
               || (Sent(r.log, Vox) == Sent(s.log, Vox) + [c] && s.gate.preroll == [] && Chunks(r.gate.preroll) == []))
    ensures Ordered(r, Vox)
  {
    hide Sent, Subsequence, Queued;
    var a, b, e := Sent(s.log, Vox), Chunks(s.gate.preroll) + [c], Queued(s.queue, Vox) + Tapped(s.vox);
    assert Trail(s, Vox) == a + b + e;
    DropFront(a, b, k, e, s.vox.captured);
    DropMiddle(a, b, e, s.vox.captured);
    if Sent(r.log, Vox) == a {
      if Chunks(r.gate.preroll) == [] {
        assert Trail(r, Vox) == a + e;
      } else {
        assert Trail(r, Vox) == a + b[k..] + e;
      }
    } else if Sent(r.log, Vox) == a + b[k..] {
      assert Trail(r, Vox) == a + b[k..] + e;
    } else {
      assert b == [c];
      assert Trail(r, Vox) == a + b + e;
    }
  }

  // ----- every run

  lemma InOrderStep(s: State, a: Turn)
    requires InOrder(s)
    ensures InOrder(Step(s, a))
  {
    hide Ordered, DoPressStart, DoPressStop, DoQueueStop, DoHop, DoTap, DoTapEnqueue, DoWorker;
    OrderedAll(s, a, Ptt);
    OrderedAll(s, a, Vox);
  }

  lemma OrderedAll(s: State, a: Turn, w: Who)
    requires Ordered(s, w) && OpenIsEmpty(s.gate)
    ensures Ordered(Step(s, a), w) && OpenIsEmpty(Step(s, a).gate)
  {
    hide Ordered, RunDelivery, RunTask;
    match a
    case PressStart(who, microphone) => OrderedPressStart(s, who, microphone, w);
    case PressStop(who) => OrderedPressStop(s, who, w);
    case QueueStop => OrderedQueueStop(s, w);
    case SetMuted(value) => OrderedEnqueue(s, Mute(value), w);
    case SetThreshold(threshold) => OrderedEnqueue(s, Tune(threshold), w);
    case Hop => OrderedHop(s, w);
    case Tap(who, samples, rate, level) => OrderedTap(s, who, samples, rate, level, w);
    case TapEnqueue(who) => OrderedTapEnqueue(s, who, w);
    case Worker(ok, recent) => OrderedWorker(s, ok, recent, w);
  }

  lemma OrderedWorker(s: State, ok: bool, recent: bool, w: Who)
    requires Ordered(s, w) && OpenIsEmpty(s.gate)
    ensures Ordered(DoWorker(s, ok, recent), w) && OpenIsEmpty(DoWorker(s, ok, recent).gate)
  {
    hide Ordered, RunStart, RunStop, RunMute, RunTune, RunGate, OpenIsEmpty;
    if s.work.Busy? {
      if s.work.delivered {
        OrderedGiveBack(s, w);
      } else {
        OrderedDeliver(s, w);
      }
    } else if s.queue != [] {
      if s.queue[0].Deliver? {
        OrderedCheck(s, ok, recent, w);
      } else {
        OrderedTask(s, ok, recent, w);
        TaskLog(s.(queue := s.queue[1..]), s.queue[0], ok, recent, w);
      }
    }
  }

  lemma InOrderInitial(config: Config)
    ensures InOrder(Initial(config))
  {
  }

  lemma {:induction false} AlwaysInOrder(config: Config, turns: seq<Turn>)
    ensures InOrder(Run(config, turns))
  {
    hide Step, Initial, InOrder;
    if turns == [] {
      InOrderInitial(config);
    } else {
      AlwaysInOrder(config, turns[..|turns| - 1]);
      InOrderStep(Run(config, turns[..|turns| - 1]), turns[|turns| - 1]);
    }
  }

  /** For every interleaving, what a transmitter has sent is a subsequence of what it captured: in order, nothing twice,
      nothing invented. The pre-roll is no exception. */
  lemma SentIsSubsequence(config: Config, turns: seq<Turn>, who: Who)
    ensures var s := Run(config, turns); Subsequence(Sent(s.log, who), s.Of(who).captured)
  {
    hide Run, Sent, Queued, Subsequence, PreRoll, Working, Tapped;
    AlwaysInOrder(config, turns);
    var s := Run(config, turns);
    assert Ordered(s, who);
    var rest := PreRoll(s, who) + Working(s.work, who) + Queued(s.queue, who) + Tapped(s.Of(who));
    assert Trail(s, who) == Sent(s.log, who) + rest + [];
    DropMiddle(Sent(s.log, who), rest, [], s.Of(who).captured);
    assert Sent(s.log, who) + [] == Sent(s.log, who);
  }
}
