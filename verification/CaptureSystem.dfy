/** Capture and transmit as a step system: the main thread, two tap threads, and the one serial worker queue that the
    push-to-talk and the voice-activated transmitter share.

    A run is any sequence of turns. An action that is not enabled changes nothing, so every interleaving is covered. */
module CaptureSystem {
  import opened Options
  import opened VoxGate
  import opened CaptureDelivery

  datatype Who = Ptt | Vox

  /** A chunk on its way from the tap to the worker. */
  datatype Packet = Packet(token: nat, duration: real, chunk: Chunk)

  /** One transmitter and its capture object. `flag` is the main thread's isTransmitting or isRunning; `running` belongs
      to the worker; `inflight` is a chunk that has its reservation but is not in the queue yet; `captured` keeps every
      chunk that ever got a reservation. */
  datatype Side = Side(
    flag: bool,
    running: bool,
    delivery: Delivery,
    session: nat,
    captured: seq<Chunk>,
    inflight: Option<Packet>)

  datatype Task =
    | Start(who: Who)
    | Stop(who: Who)
    | Deliver(who: Who, packet: Packet)
    | Mute(value: bool)
    | Tune(threshold: real)

  /** A delivery task runs in three pieces: check, deliver, give back. */
  datatype Work = Free | Busy(who: Who, packet: Packet, go: bool, delivered: bool)

  /** What the client sees, and a mark for every capture session that begins. */
  datatype Call = Began(who: Who) | StartTransmit(who: Who) | StopTransmit(who: Who) | SendPCM(who: Who, chunk: Chunk)

  datatype State = State(
    ptt: Side,
    vox: Side,
    queue: seq<Task>,
    work: Work,
    hops: seq<Who>,
    stopping: Option<Who>,
    gate: Gate,
    gateOpen: bool,
    log: seq<Call>)
  {
    function Of(who: Who): Side {
      if who.Ptt? then ptt else vox
    }

    function With(who: Who, side: Side): State {
      if who.Ptt? then this.(ptt := side) else this.(vox := side)
    }
  }

  datatype Turn =
    | PressStart(who: Who, microphone: bool)
    | PressStop(who: Who)
    | QueueStop
    | SetMuted(value: bool)
    | SetThreshold(threshold: real)
    | Hop
    | Tap(who: Who, samples: nat, rate: nat, level: real)
    | TapEnqueue(who: Who)
    | Worker(ok: bool, recent: bool)

  function Idle(): Side {
    Side(false, false, Delivery(false, 0, 0.0), 0, [], None)
  }

  function Initial(config: Config): State {
    State(Idle(), Idle(), [], Free, [], None, Cleared(Gate(config, false, false, 0.0, 0.0, 0.0, [], false)), false, [])
  }

  // ----- main thread

  function DoPressStart(s: State, who: Who, microphone: bool): State {
    if s.stopping.Some? || s.Of(who).flag || (who.Ptt? && !microphone) then s
    else s.With(who, s.Of(who).(flag := true)).(queue := s.queue + [Start(who)])
  }

  /** The first half of a stop cuts the tap off, under the lock of the capture. */
  function DoPressStop(s: State, who: Who): State {
    var side := s.Of(who);
    if s.stopping.Some? || !side.flag then s
    else s.With(who, side.(delivery := Stopped(side.delivery))).(stopping := Some(who))
  }

  /** The second half queues the worker's part. Worker and taps may act in between; the main thread is still inside. */
  function DoQueueStop(s: State): State {
    if s.stopping.None? then s
    else
      var who := s.stopping.value;
      s.With(who, s.Of(who).(flag := false)).(queue := s.queue + [Stop(who)], stopping := None)
  }

  /** The block that a capture error left on the main queue. */
  function DoHop(s: State): State {
    if s.stopping.Some? || s.hops == [] then s
    else s.With(s.hops[0], s.Of(s.hops[0]).(flag := false)).(hops := s.hops[1..])
  }

  // ----- tap threads

  function DoTap(s: State, who: Who, samples: nat, rate: nat, level: real): State {
    var side := s.Of(who);
    if side.inflight.Some? || samples == 0 || rate == 0 then s
    else
      var duration := samples as real / rate as real;
      var r := Submitted(side.delivery, duration);
      if r.1.None? then s
      else
        var chunk := Chunk(side.session, |side.captured|, samples, rate, level);
        s.With(who, side.(delivery := r.0, captured := side.captured + [chunk],
                          inflight := Some(Packet(r.1.value, duration, chunk))))
  }

  function DoTapEnqueue(s: State, who: Who): State {
    var side := s.Of(who);
    if side.inflight.None? then s
    else s.With(who, side.(inflight := None)).(queue := s.queue + [Deliver(who, side.inflight.value)])
  }

  // ----- worker

  function Log(s: State, call: Call): State {
    s.(log := s.log + [call])
  }

  /** Stops the voice-activated transmission if the gate has opened one. */
  function CloseGate(s: State): State {
    if s.gateOpen then Log(s, StopTransmit(Vox)).(gateOpen := false) else s
  }

  function RunStart(s: State, who: Who, ok: bool): State {
    var side := s.Of(who);
    if side.running then s
    else if ok then
      var s := Log(s.With(who, side.(running := true, delivery := Begun(side.delivery), session := side.session + 1)),
                   Began(who));
      if who.Ptt? then Log(s, StartTransmit(Ptt)) else s.(gate := Cleared(s.gate), gateOpen := false)
    else
      var s := if who.Ptt? then Log(s, StopTransmit(Ptt)) else CloseGate(s);
      s.(hops := s.hops + [who])
  }

  function RunStop(s: State, who: Who): State {
    var side := s.Of(who);
    var s := s.With(who, side.(delivery := Stopped(side.delivery), running := false));
    if who.Ptt? then Log(s, StopTransmit(Ptt))
    else
      var s := CloseGate(s);
      s.(gate := Cleared(s.gate))
  }

  function RunMute(s: State, value: bool): State {
    var s := s.(gate := Muted(s.gate, value));
    if value && s.gateOpen then
      var s := CloseGate(s);
      s.(gate := Cleared(s.gate))
    else s
  }

  function RunTune(s: State, threshold: real): State {
    s.(gate := s.gate.(config := s.gate.config.(openThreshold := threshold, closeThreshold := threshold - 10.0)))
  }

  function Sends(who: Who, chunks: seq<Chunk>): (r: seq<Call>)
    ensures |r| == |chunks|
  {
    seq(|chunks|, i requires 0 <= i < |chunks| => SendPCM(who, chunks[i]))
  }

  /** The voice-activated chunk callback. */
  function RunGate(s: State, chunk: Chunk): State {
    var outcome := Next(s.gate, chunk);
    var s := s.(gate := outcome.gate);
    match outcome.action
    case Idle => s
    case Open(flush) => s.(log := s.log + [StartTransmit(Vox)] + Sends(Vox, flush), gateOpen := true)
    case Transmit(c) => Log(s, SendPCM(Vox, c))
    case Close => Log(s, StopTransmit(Vox)).(gateOpen := false)
  }

  function RunDelivery(s: State): State
    requires s.work.Busy?
  {
    var w := s.work;
    if !w.delivered then
      var s := s.(work := w.(delivered := true));
      if !w.go then s
      else if w.who.Ptt? then Log(s, SendPCM(Ptt, w.packet.chunk))
      else RunGate(s, w.packet.chunk)
    else
      var side := s.Of(w.who);
      s.With(w.who, side.(delivery := Finished(side.delivery, w.packet.duration, w.packet.token))).(work := Free)
  }

  function RunTask(s: State, task: Task, ok: bool, recent: bool): State {
    match task
    case Start(who) => RunStart(s, who, ok)
    case Stop(who) => RunStop(s, who)
    case Deliver(who, packet) =>
      s.(work := Busy(who, packet, Current(s.Of(who).delivery, packet.token) && recent, false))
    case Mute(value) => RunMute(s, value)
    case Tune(threshold) => RunTune(s, threshold)
  }

  function DoWorker(s: State, ok: bool, recent: bool): State {
    if s.work.Busy? then RunDelivery(s)
    else if s.queue == [] then s
    else RunTask(s.(queue := s.queue[1..]), s.queue[0], ok, recent)
  }

  function Step(s: State, a: Turn): State {
    match a
    case PressStart(who, microphone) => DoPressStart(s, who, microphone)
    case PressStop(who) => DoPressStop(s, who)
    case QueueStop => DoQueueStop(s)
    case SetMuted(value) => s.(queue := s.queue + [Mute(value)])
    case SetThreshold(threshold) => s.(queue := s.queue + [Tune(threshold)])
    case Hop => DoHop(s)
    case Tap(who, samples, rate, level) => DoTap(s, who, samples, rate, level)
    case TapEnqueue(who) => DoTapEnqueue(s, who)
    case Worker(ok, recent) => DoWorker(s, ok, recent)
  }

  function Run(config: Config, turns: seq<Turn>): State {
    if turns == [] then Initial(config)
    else Step(Run(config, turns[..|turns| - 1]), turns[|turns| - 1])
  }
}
