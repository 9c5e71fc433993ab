/** Safety of one transmitter over every interleaving: brackets and sessions. */
module CaptureSafety {
  import opened VoxGate
  import opened CaptureDelivery
  import opened CaptureSystem

  // ----- what is claimed about the calls

  /** The transmitter has started and not stopped since. */
  predicate OnAir(log: seq<Call>, who: Who) {
    log != [] && (
      var last := log[|log| - 1];
      if last == StartTransmit(who) then true
      else if last == StopTransmit(who) then false
      else OnAir(log[..|log| - 1], who))
  }

  /** How many capture sessions have begun. */
  function Sessions(log: seq<Call>, who: Who): nat {
    if log == [] then 0
    else Sessions(log[..|log| - 1], who) + (if log[|log| - 1] == Began(who) then 1 else 0)
  }

  /** A call is in place after the calls before it: no start while on the air, no PCM off the air, only chunks that
      were captured in the session that is running, and no stop of the voice-activated side off the air. The
      push-to-talk side may repeat a stop: it has no gate that would tell. */
  predicate InPlace(before: seq<Call>, call: Call, who: Who) {
    && (call == StartTransmit(who) ==> !OnAir(before, who))
    && (call == StopTransmit(who) && who.Vox? ==> OnAir(before, who))
    && (call.SendPCM? && call.who == who ==>
          OnAir(before, who) && call.chunk.session == Sessions(before, who))
  }

  predicate Safe(log: seq<Call>, who: Who) {
    log == [] || (Safe(log[..|log| - 1], who) && InPlace(log[..|log| - 1], log[|log| - 1], who))
  }

  // ----- the invariant

  predicate PacketFits(side: Side, p: Packet) {
    && p.token <= side.delivery.generation
    && (side.delivery.active && p.token == side.delivery.generation ==> p.chunk.session == side.session)
  }

  predicate SideFits(s: State, who: Who) {
    var side := s.Of(who);
    && (side.delivery.active ==> side.running)
    && side.session == Sessions(s.log, who)
    && (side.inflight.Some? ==> PacketFits(side, side.inflight.value))
    && (forall i :: 0 <= i < |s.queue| && s.queue[i].Deliver? && s.queue[i].who == who ==>
          PacketFits(side, s.queue[i].packet))
    && (s.work.Busy? && s.work.who == who && s.work.go && !s.work.delivered ==>
          side.running && s.work.packet.chunk.session == side.session)
    && Safe(s.log, who)
  }

  /** On the worker the transmitter's own flag, the gate and the calls agree, and no mute-close is pending. */
  predicate GateFits(s: State) {
    && (OnAir(s.log, Ptt) <==> s.ptt.running)
    && (OnAir(s.log, Vox) <==> s.gateOpen)
    && s.gateOpen == s.gate.isOpen
    && (s.gateOpen ==> s.vox.running)
    && !s.gate.pendingCloseFromMute
    && (s.gate.muted ==> !s.gate.isOpen)
    && (forall i :: 0 <= i < |s.gate.preroll| ==> s.gate.preroll[i].chunk.session == s.vox.session)
  }

  ghost predicate Fits(s: State) {
    SideFits(s, Ptt) && SideFits(s, Vox) && GateFits(s)
  }

  // ----- the calls one at a time

  lemma LogOne(log: seq<Call>, call: Call, who: Who)
    ensures OnAir(log + [call], who)
         == if call == StartTransmit(who) then true else if call == StopTransmit(who) then false else OnAir(log, who)
    ensures Sessions(log + [call], who) == Sessions(log, who) + (if call == Began(who) then 1 else 0)
    ensures Safe(log + [call], who) <==> Safe(log, who) && InPlace(log, call, who)
  {
    assert (log + [call])[..|log|] == log;
  }

  lemma {:induction false} LogSends(log: seq<Call>, sender: Who, chunks: seq<Chunk>, who: Who)
    requires Safe(log, who)
    requires sender == who ==> OnAir(log, who)
    requires sender == who ==> forall i :: 0 <= i < |chunks| ==> chunks[i].session == Sessions(log, who)
    ensures var log' := log + Sends(sender, chunks); (
              && Safe(log', who) && OnAir(log', who) == OnAir(log, who) && Sessions(log', who) == Sessions(log, who))
  {
    hide OnAir, Sessions, Safe;
    if chunks == [] {
      assert log + Sends(sender, chunks) == log;
    } else {
      var n := |chunks| - 1;
      LogSends(log, sender, chunks[..n], who);
      assert Sends(sender, chunks) == Sends(sender, chunks[..n]) + [SendPCM(sender, chunks[n])];
      assert log + Sends(sender, chunks) == log + Sends(sender, chunks[..n]) + [SendPCM(sender, chunks[n])];
      LogOne(log + Sends(sender, chunks[..n]), SendPCM(sender, chunks[n]), who);
    }
  }

  lemma LogCall(s: State, call: Call)
    ensures forall who :: (
              && OnAir(Log(s, call).log, who)
              == (if call == StartTransmit(who) then true
                  else if call == StopTransmit(who) then false
                  else OnAir(s.log, who))
              && Sessions(Log(s, call).log, who) == Sessions(s.log, who) + (if call == Began(who) then 1 else 0)
              && (Safe(Log(s, call).log, who) <==> Safe(s.log, who) && InPlace(s.log, call, who)))
  {
    hide OnAir, Sessions, Safe, InPlace;
    forall who: Who {
      LogOne(s.log, call, who);
    }
  }

  // ----- preservation, action by action

  lemma FitsPressStart(s: State, who: Who, microphone: bool)
    requires Fits(s)
    ensures Fits(DoPressStart(s, who, microphone))
  {
    hide OnAir, Sessions, Safe;
  }

  lemma FitsPressStop(s: State, who: Who)
    requires Fits(s)
    ensures Fits(DoPressStop(s, who))
  {
    hide OnAir, Sessions, Safe;
  }

  lemma FitsQueueStop(s: State)
    requires Fits(s)
    ensures Fits(DoQueueStop(s))
  {
    hide Fits;
    if s.stopping.Some? {
      var t := s.(queue := s.queue + [Stop(s.stopping.value)]);
      FitsEnqueue(s, Stop(s.stopping.value));
      FitsMainOnly(t, DoQueueStop(s));
    }
  }

  predicate SameSide(a: Side, b: Side) {
    a.running == b.running && a.delivery == b.delivery && a.session == b.session && a.inflight == b.inflight
  }

  /** The invariant does not look at the main thread. */
  lemma FitsMainOnly(s: State, t: State)
    requires Fits(s)
    requires SameSide(s.ptt, t.ptt) && SameSide(s.vox, t.vox)
    requires t.queue == s.queue && t.work == s.work && t.gate == s.gate && t.gateOpen == s.gateOpen && t.log == s.log
    ensures Fits(t)
  {
    hide OnAir, Sessions, Safe;
  }

  lemma FitsHop(s: State)
    requires Fits(s)
    ensures Fits(DoHop(s))
  {
    hide Fits;
    FitsMainOnly(s, DoHop(s));
  }

  lemma FitsTap(s: State, who: Who, samples: nat, rate: nat, level: real)
    requires Fits(s)
    ensures Fits(DoTap(s, who, samples, rate, level))
  {
    hide OnAir, Sessions, Safe;
  }

  lemma FitsTapEnqueue(s: State, who: Who)
    requires Fits(s)
    ensures Fits(DoTapEnqueue(s, who))
  {
    hide OnAir, Sessions, Safe;
  }

  lemma FitsEnqueue(s: State, task: Task)
    requires Fits(s) && !task.Deliver?
    ensures Fits(s.(queue := s.queue + [task]))
  {
    hide OnAir, Sessions, Safe;
  }

  lemma FitsDequeue(s: State)
    requires Fits(s) && s.queue != []
    ensures Fits(s.(queue := s.queue[1..]))
    ensures s.queue[0].Deliver? ==> PacketFits(s.Of(s.queue[0].who), s.queue[0].packet)
  {
    hide OnAir, Sessions, Safe, PacketFits;
    var t := s.(queue := s.queue[1..]);
    forall i | 0 <= i < |t.queue| && t.queue[i].Deliver?
      ensures PacketFits(s.Of(t.queue[i].who), t.queue[i].packet)
    {
      assert t.queue[i] == s.queue[i + 1];
    }
  }

  lemma FitsRunStartPtt(s: State, ok: bool)
    requires Fits(s)
    ensures Fits(RunStart(s, Ptt, ok))
  {
    hide OnAir, Sessions, Safe;
    if !s.ptt.running {
      if ok {
        var t := s.With(Ptt, s.ptt.(running := true, delivery := Begun(s.ptt.delivery), session := s.ptt.session + 1));
        LogCall(t, Began(Ptt));
        LogCall(Log(t, Began(Ptt)), StartTransmit(Ptt));
      } else {
        LogCall(s, StopTransmit(Ptt));
      }
    }
  }

  lemma FitsRunStartVox(s: State, ok: bool)
    requires Fits(s)
    ensures Fits(RunStart(s, Vox, ok))
  {
    hide OnAir, Sessions, Safe;
    if !s.vox.running && ok {
      var t := s.With(Vox, s.vox.(running := true, delivery := Begun(s.vox.delivery), session := s.vox.session + 1));
      LogCall(t, Began(Vox));
    }
  }

  lemma FitsRunStopPtt(s: State)
    requires Fits(s) && s.work.Free?
    ensures Fits(RunStop(s, Ptt))
  {
    hide OnAir, Sessions, Safe;
    LogCall(s.With(Ptt, s.ptt.(delivery := Stopped(s.ptt.delivery), running := false)), StopTransmit(Ptt));
  }

  lemma FitsRunStopVox(s: State)
    requires Fits(s) && s.work.Free?
    ensures Fits(RunStop(s, Vox))
  {
    hide OnAir, Sessions, Safe;
    LogCall(s.With(Vox, s.vox.(delivery := Stopped(s.vox.delivery), running := false)), StopTransmit(Vox));
  }

  lemma FitsRunMute(s: State, value: bool)
    requires Fits(s)
    ensures Fits(RunMute(s, value))
  {
    hide OnAir, Sessions, Safe;
    LogCall(s, StopTransmit(Vox));
  }

  lemma FitsRunTune(s: State, threshold: real)
    requires Fits(s)
    ensures Fits(RunTune(s, threshold))
  {
    hide OnAir, Sessions, Safe;
  }

  lemma FitsCheck(s: State, who: Who, packet: Packet, recent: bool)
    requires Fits(s) && s.work.Free? && PacketFits(s.Of(who), packet)
    ensures Fits(s.(work := Busy(who, packet, Current(s.Of(who).delivery, packet.token) && recent, false)))
  {
    hide OnAir, Sessions, Safe;
  }

  /** What the gate does with a chunk of the running session, while no mute-close is pending. */
  lemma GateStep(g: Gate, c: Chunk)
    requires !g.pendingCloseFromMute && (g.muted ==> !g.isOpen)
    requires forall i :: 0 <= i < |g.preroll| ==> g.preroll[i].chunk.session == c.session
    ensures var next := Next(g, c); (
              && !next.gate.pendingCloseFromMute
              && next.gate.muted == g.muted
              && (next.gate.muted ==> !next.gate.isOpen)
              && (forall i :: 0 <= i < |next.gate.preroll| ==> next.gate.preroll[i].chunk.session == c.session)
              && match next.action
                 case Idle => !g.isOpen && !next.gate.isOpen
                 case Open(flush) => !g.isOpen && next.gate.isOpen
                                     && forall i :: 0 <= i < |flush| ==> flush[i].session == c.session
                 case Transmit(d) => g.isOpen && next.gate.isOpen && d == c
                 case Close => g.isOpen && !next.gate.isOpen)
  {
    hide Chunk.DurMs, Prune;
  }

  lemma FitsRunGate(s: State, c: Chunk)
    requires Fits(s) && s.vox.running && c.session == s.vox.session
    requires s.work.Busy? && s.work.delivered
    ensures Fits(RunGate(s, c))
  {
    hide OnAir, Sessions, Safe, Next, PacketFits;
    GateStep(s.gate, c);
    var outcome := Next(s.gate, c);
    match outcome.action
    case Idle =>
    case Open(flush) =>
      LogCall(s, StartTransmit(Vox));
      LogSends(s.log + [StartTransmit(Vox)], Vox, flush, Ptt);
      LogSends(s.log + [StartTransmit(Vox)], Vox, flush, Vox);
    case Transmit(d) => LogCall(s, SendPCM(Vox, d));
    case Close => LogCall(s, StopTransmit(Vox));
  }

  lemma FitsDeliver(s: State)
    requires Fits(s) && s.work.Busy? && !s.work.delivered
    ensures Fits(RunDelivery(s))
  {
    hide OnAir, Sessions, Safe, Next, PacketFits, RunGate;
    var t := s.(work := s.work.(delivered := true));
    assert Fits(t);
    if s.work.go {
      if s.work.who.Ptt? {
        LogCall(t, SendPCM(Ptt, s.work.packet.chunk));
      } else {
        FitsRunGate(t, s.work.packet.chunk);
      }
    }
  }

  lemma FitsGiveBack(s: State)
    requires Fits(s) && s.work.Busy? && s.work.delivered
    ensures Fits(RunDelivery(s))
  {
    hide OnAir, Sessions, Safe;
  }

  lemma FitsTask(s: State, task: Task, ok: bool, recent: bool)
    requires Fits(s) && s.work.Free?
    requires task.Deliver? ==> PacketFits(s.Of(task.who), task.packet)
    ensures Fits(RunTask(s, task, ok, recent))
  {
    hide Fits, RunStart, RunStop, RunMute, RunTune;
    match task
    case Start(who) => if who.Ptt? { FitsRunStartPtt(s, ok); } else { FitsRunStartVox(s, ok); }
    case Stop(who) => if who.Ptt? { FitsRunStopPtt(s); } else { FitsRunStopVox(s); }
    case Deliver(who, packet) => FitsCheck(s, who, packet, recent);
    case Mute(value) => FitsRunMute(s, value);
    case Tune(threshold) => FitsRunTune(s, threshold);
  }

  lemma FitsStep(s: State, a: Turn)
    requires Fits(s)
    ensures Fits(Step(s, a))
  {
    hide Fits, DoPressStart, DoPressStop, DoQueueStop, DoHop, DoTap, DoTapEnqueue, RunDelivery, RunTask;
    match a
    case PressStart(who, microphone) => FitsPressStart(s, who, microphone);
    case PressStop(who) => FitsPressStop(s, who);
    case QueueStop => FitsQueueStop(s);
    case SetMuted(value) => FitsEnqueue(s, Mute(value));
    case SetThreshold(threshold) => FitsEnqueue(s, Tune(threshold));
    case Hop => FitsHop(s);
    case Tap(who, samples, rate, level) => FitsTap(s, who, samples, rate, level);
    case TapEnqueue(who) => FitsTapEnqueue(s, who);
    case Worker(ok, recent) =>
      if s.work.Busy? {
        if s.work.delivered { FitsGiveBack(s); } else { FitsDeliver(s); }
      } else if s.queue != [] {
        FitsDequeue(s);
        FitsTask(s.(queue := s.queue[1..]), s.queue[0], ok, recent);
      }
  }

  lemma {:induction false} AlwaysFits(config: Config, turns: seq<Turn>)
    ensures Fits(Run(config, turns))
  {
    hide Step, Initial;
    if turns == [] {
      InitialFits(config);
    } else {
      AlwaysFits(config, turns[..|turns| - 1]);
      FitsStep(Run(config, turns[..|turns| - 1]), turns[|turns| - 1]);
    }
  }

  lemma InitialFits(config: Config)
    ensures Fits(Initial(config))
  {
  }

  /** For every interleaving and for either transmitter: PCM is sent only between a start and the next stop, no two
      starts lack a stop between them, every chunk that is sent was captured in the session that is running, and on the
      voice-activated side no two stops lack a start. */
  lemma CaptureIsSafe(config: Config, turns: seq<Turn>, who: Who)
    ensures Safe(Run(config, turns).log, who)
  {
    AlwaysFits(config, turns);
  }

  lemma {:induction false} SafeAt(log: seq<Call>, who: Who, i: nat)
    requires Safe(log, who) && i < |log|
    ensures InPlace(log[..i], log[i], who)
  {
    hide InPlace;
    var n := |log| - 1;
    if i < n {
      SafeAt(log[..n], who, i);
      assert log[..n][..i] == log[..i];
    }
  }

  /** No spurious close: every stop of the voice-activated transmitter, in every interleaving, ends a transmission. */
  lemma EveryCloseEndsOne(config: Config, turns: seq<Turn>, i: nat)
    requires var log := Run(config, turns).log; i < |log| && log[i] == StopTransmit(Vox)
    ensures OnAir(Run(config, turns).log[..i], Vox)
  {
    hide Run, OnAir, Safe;
    CaptureIsSafe(config, turns, Vox);
    SafeAt(Run(config, turns).log, Vox, i);
  }

  /** The push-to-talk side does repeat stops: the very first call can be one, after a capture that did not start. */
  lemma PttStopsUnstarted(config: Config)
    ensures Run(config, [PressStart(Ptt, true), Worker(false, true)]).log == [StopTransmit(Ptt)]
  {
    hide Cleared;
    var turns := [PressStart(Ptt, true), Worker(false, true)];
    assert turns[..1] == [PressStart(Ptt, true)] && turns[..1][..0] == [];
    var s := Step(Initial(config), PressStart(Ptt, true));
    assert s.queue == [Start(Ptt)] && s.work.Free? && s.log == [];
    assert Run(config, turns[..1]) == s;
  }

  /** At every point the worker's own view is right: the push-to-talk side is on the air exactly while its capture runs,
      the voice-activated side exactly while the gate is open, and no stale mute-close can ever fire. */
  lemma WorkerViewIsRight(config: Config, turns: seq<Turn>)
    ensures var s := Run(config, turns); (
              && (OnAir(s.log, Ptt) <==> s.ptt.running)
              && (OnAir(s.log, Vox) <==> s.gate.isOpen)
              && s.gateOpen == s.gate.isOpen
              && !s.gate.pendingCloseFromMute)
  {
    AlwaysFits(config, turns);
  }
}
