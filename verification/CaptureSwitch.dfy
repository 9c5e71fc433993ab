/** The two transmitters together: the main thread's flags, and the one client that both of them call. */
module CaptureSwitch {
  import opened Options
  import opened VoxGate
  import opened CaptureDelivery
  import opened CaptureSystem
  import opened CaptureSafety

  // ----- the main thread's flags

  /** Whether the capture will run once the queue is drained, if every start succeeds. */
  function Eventually(queue: seq<Task>, who: Who, running: bool): bool {
    if queue == [] then running
    else
      var last := queue[|queue| - 1];
      if last == Start(who) then true
      else if last == Stop(who) then false
      else Eventually(queue[..|queue| - 1], who, running)
  }

  predicate WillRun(s: State, who: Who) {
    Eventually(s.queue, who, s.Of(who).running)
  }

  /** The main thread knows of every capture that runs or will run. Otherwise nobody can stop it: stop is a no-op while
      the flag is down. */
  predicate Flagged(s: State) {
    (WillRun(s, Ptt) ==> s.ptt.flag) && (WillRun(s, Vox) ==> s.vox.flag)
  }

  /** An error block of an earlier start is about to take down the flag of a later one. */
  predicate StaleHop(s: State, a: Turn) {
    a.Hop? && s.stopping.None? && s.hops != [] && WillRun(s, s.hops[0])
  }

  lemma EventuallySnoc(queue: seq<Task>, task: Task, who: Who, running: bool)
    ensures Eventually(queue + [task], who, running)
         == if task == Start(who) then true else if task == Stop(who) then false else Eventually(queue, who, running)
  {
    assert (queue + [task])[..|queue|] == queue;
  }

  lemma {:induction false} EventuallyFirst(queue: seq<Task>, who: Who, running: bool)
    requires queue != []
    ensures var next := if queue[0] == Start(who) then true else if queue[0] == Stop(who) then false else running;
            Eventually(queue, who, running) == Eventually(queue[1..], who, next)
    decreases |queue|
  {
    var n := |queue| - 1;
    if n > 0 {
      EventuallyFirst(queue[..n], who, running);
      assert queue[..n][1..] == queue[1..][..n - 1];
    }
  }

  lemma {:induction false} EventuallyLess(queue: seq<Task>, who: Who)
    ensures Eventually(queue, who, false) ==> Eventually(queue, who, true)
  {
    if queue != [] {
      EventuallyLess(queue[..|queue| - 1], who);
    }
  }

  /** A task of the worker never makes a capture run that the queue did not announce. */
  lemma WorkerWillRun(s: State, ok: bool, recent: bool, who: Who)
    ensures WillRun(DoWorker(s, ok, recent), who) ==> WillRun(s, who)
    ensures DoWorker(s, ok, recent).Of(who).flag == s.Of(who).flag
  {
    hide Eventually, Next, Cleared, Muted, Sends;
    if s.work.Free? && s.queue != [] {
      EventuallyFirst(s.queue, who, s.Of(who).running);
      EventuallyLess(s.queue[1..], who);
    }
  }

  /** The flags stay right under every action but one, the stale error block, and that one always breaks them. */
  lemma FlagStep(s: State, a: Turn)
    requires Flagged(s)
    ensures Flagged(Step(s, a)) <==> !StaleHop(s, a)
  {
    hide Eventually, DoWorker;
    match a
    case PressStart(who, microphone) =>
      EventuallySnoc(s.queue, Start(who), Ptt, s.ptt.running);
      EventuallySnoc(s.queue, Start(who), Vox, s.vox.running);
    case PressStop(who) =>
    case QueueStop =>
      if s.stopping.Some? {
        EventuallySnoc(s.queue, Stop(s.stopping.value), Ptt, s.ptt.running);
        EventuallySnoc(s.queue, Stop(s.stopping.value), Vox, s.vox.running);
      }
    case SetMuted(value) =>
      EventuallySnoc(s.queue, Mute(value), Ptt, s.ptt.running);
      EventuallySnoc(s.queue, Mute(value), Vox, s.vox.running);
    case SetThreshold(threshold) =>
      EventuallySnoc(s.queue, Tune(threshold), Ptt, s.ptt.running);
      EventuallySnoc(s.queue, Tune(threshold), Vox, s.vox.running);
    case Hop =>
    case Tap(who, samples, rate, level) =>
    case TapEnqueue(who) =>
      if s.Of(who).inflight.Some? {
        EventuallySnoc(s.queue, Deliver(who, s.Of(who).inflight.value), Ptt, s.ptt.running);
        EventuallySnoc(s.queue, Deliver(who, s.Of(who).inflight.value), Vox, s.vox.running);
      }
    case Worker(ok, recent) =>
      WorkerWillRun(s, ok, recent, Ptt);
      WorkerWillRun(s, ok, recent, Vox);
  }

  lemma InitiallyFlagged(config: Config)
    ensures Flagged(Initial(config))
  {
  }

  predicate AlwaysFlagged(config: Config, turns: seq<Turn>) {
    Flagged(Run(config, turns)) && (turns == [] || AlwaysFlagged(config, turns[..|turns| - 1]))
  }

  predicate NoStaleHop(config: Config, turns: seq<Turn>) {
    turns == []
    || (NoStaleHop(config, turns[..|turns| - 1])
        && !StaleHop(Run(config, turns[..|turns| - 1]), turns[|turns| - 1]))
  }

  /** Over whole runs: the flags are right throughout exactly when no error block is overtaken by a new start. */
  lemma {:induction false} FlaggedIffNoStaleHop(config: Config, turns: seq<Turn>)
    ensures AlwaysFlagged(config, turns) <==> NoStaleHop(config, turns)
  {
    hide Step, StaleHop, Flagged, Initial;
    if turns == [] {
      InitiallyFlagged(config);
    } else {
      FlaggedIffNoStaleHop(config, turns[..|turns| - 1]);
      if AlwaysFlagged(config, turns[..|turns| - 1]) {
        FlaggedNow(config, turns[..|turns| - 1]);
        FlagStep(Run(config, turns[..|turns| - 1]), turns[|turns| - 1]);
      }
    }
  }

  lemma FlaggedNow(config: Config, turns: seq<Turn>)
    requires AlwaysFlagged(config, turns)
    ensures Flagged(Run(config, turns))
  {
  }

  /** A stop and a new start are queued, and the error block of the failed start is still on the main queue. */
  predicate Overtaken(s: State) {
    s.queue == [Stop(Ptt), Start(Ptt)] && s.hops == [Ptt] && s.stopping == None && s.work.Free? && s.ptt.flag
    && !s.ptt.running
  }

  lemma OvertakenLeavesItOn(s: State)
    requires Overtaken(s)
    ensures var t := Step(Step(Step(s, Worker(true, true)), Worker(true, true)), Hop); (
              t.ptt.running && OnAir(t.log, Ptt) && t.queue == [] && t.work.Free? && t.hops == []
              && DoPressStop(t, Ptt) == t)
  {
    hide OnAir, Cleared;
    var s1 := Step(s, Worker(true, true));
    assert s1.queue == [Start(Ptt)] && s1.hops == [Ptt] && s1.work.Free? && s1.ptt.flag && !s1.ptt.running;
    var s2 := Step(s1, Worker(true, true));
    assert s2.queue == [] && s2.hops == [Ptt] && s2.work.Free? && s2.ptt.running && s2.stopping == None;
    assert s2.log == s1.log + [Began(Ptt)] + [StartTransmit(Ptt)];
    LogOne(s1.log + [Began(Ptt)], StartTransmit(Ptt), Ptt);
    assert [Ptt][1..] == [];
  }

  lemma OvertakenSteps(s: State)
    requires s.queue == [] && s.hops == [] && s.stopping == None && s.work.Free? && !s.ptt.flag && !s.ptt.running
    ensures var pressed := Step(Step(s, PressStart(Ptt, true)), Worker(false, true));
            Overtaken(Step(Step(Step(pressed, PressStop(Ptt)), QueueStop), PressStart(Ptt, true)))
  {
    hide Cleared;
    var s1 := Step(s, PressStart(Ptt, true));
    assert s1.queue == [Start(Ptt)] && s1.hops == [] && s1.work.Free? && s1.ptt.flag && !s1.ptt.running;
    var s2 := Step(s1, Worker(false, true));
    assert s2.hops == [Ptt] && s2.queue == [] && s2.ptt.flag && !s2.ptt.running && s2.work.Free?;
    var s3 := Step(Step(s2, PressStop(Ptt)), QueueStop);
    assert s3.queue == [Stop(Ptt)] && s3.hops == [Ptt] && !s3.ptt.flag && !s3.ptt.running && s3.work.Free?;
  }

  lemma OvertakenReachable(config: Config)
    ensures Overtaken(Run(config, [PressStart(Ptt, true), Worker(false, true), PressStop(Ptt), QueueStop,
                                   PressStart(Ptt, true)]))
  {
    hide Step, Overtaken;
    var t1, t2, t3 := PressStart(Ptt, true), Worker(false, true), PressStop(Ptt);
    assert Run(config, []) == Initial(config);
    RunSnoc(config, [], t1);
    RunSnoc(config, [t1], t2);
    RunSnoc(config, [t1, t2], t3);
    RunSnoc(config, [t1, t2, t3], QueueStop);
    RunSnoc(config, [t1, t2, t3, QueueStop], t1);
    assert [] + [t1] == [t1] && [t1] + [t2] == [t1, t2] && [t1, t2] + [t3] == [t1, t2, t3];
    assert [t1, t2, t3] + [QueueStop] == [t1, t2, t3, QueueStop];
    assert [t1, t2, t3, QueueStop] + [t1] == [t1, t2, t3, QueueStop, t1];
    OvertakenSteps(Initial(config));
  }

  /** Start, failure, stop, start again, and only then the error block: the microphone runs, nothing is queued, and the
      main thread believes that nothing is on, so that releasing the key does nothing. */
  lemma MicrophoneLeftOn(config: Config)
    ensures var turns := [PressStart(Ptt, true), Worker(false, true), PressStop(Ptt), QueueStop, PressStart(Ptt, true)]
                         + [Worker(true, true)] + [Worker(true, true)] + [Hop];
            var s := Run(config, turns); (
              s.ptt.running && OnAir(s.log, Ptt) && s.queue == [] && s.work.Free? && s.hops == []
              && DoPressStop(s, Ptt) == s)
  {
    hide Run, Step, OnAir, Overtaken;
    var setup := [PressStart(Ptt, true), Worker(false, true), PressStop(Ptt), QueueStop, PressStart(Ptt, true)];
    OvertakenReachable(config);
    OvertakenLeavesItOn(Run(config, setup));
    RunSnoc(config, setup, Worker(true, true));
    RunSnoc(config, setup + [Worker(true, true)], Worker(true, true));
    RunSnoc(config, setup + [Worker(true, true)] + [Worker(true, true)], Hop);
  }

  lemma RunSnoc(config: Config, turns: seq<Turn>, t: Turn)
    ensures Run(config, turns + [t]) == Step(Run(config, turns), t)
  {
    assert (turns + [t])[..|turns|] == turns;
  }

  // ----- one client for both transmitters

  /** Who is on the air, when a stop of either transmitter ends the transmission. */
  function Air(log: seq<Call>): Option<Who> {
    if log == [] then None
    else
      match log[|log| - 1]
      case StartTransmit(who) => Some(who)
      case StopTransmit(_) => None
      case Began(_) => Air(log[..|log| - 1])
      case SendPCM(_, _) => Air(log[..|log| - 1])
  }

  /** A call is in place for the shared client: no start while anyone is on the air, PCM only from whoever is, and no
      stop that cuts the other one off; the voice-activated side only stops what it has started. */
  predicate Admissible(before: seq<Call>, call: Call) {
    match call
    case StartTransmit(_) => Air(before) == None
    case StopTransmit(who) => Air(before) == Some(who) || (who.Ptt? && Air(before) == None)
    case SendPCM(who, _) => Air(before) == Some(who)
    case Began(_) => true
  }

  predicate Shared(log: seq<Call>) {
    log == [] || (Shared(log[..|log| - 1]) && Admissible(log[..|log| - 1], log[|log| - 1]))
  }

  lemma SharedOne(log: seq<Call>, call: Call)
    ensures Shared(log + [call]) <==> Shared(log) && Admissible(log, call)
  {
    assert (log + [call])[..|log|] == log;
  }

  /** In a shared log the common view and the two separate ones agree. */
  lemma {:induction false} AirIsOnAir(log: seq<Call>, who: Who)
    requires Shared(log)
    ensures Air(log) == Some(who) <==> OnAir(log, who)
  {
    if log != [] {
      AirIsOnAir(log[..|log| - 1], who);
    }
  }

  /** Draining the queue never has both captures running, and a task of one side only meets the other side stopped. */
  predicate Apart(queue: seq<Task>, ptt: bool, vox: bool) {
    !(ptt && vox)
    && (queue == [] ||
        match queue[0]
        case Start(who) =>
          if who.Ptt? then !vox && Apart(queue[1..], true, vox) else !ptt && Apart(queue[1..], ptt, true)
        case Stop(who) =>
          if who.Ptt? then !vox && Apart(queue[1..], false, vox) else !ptt && Apart(queue[1..], ptt, false)
        case Deliver(_, _) => Apart(queue[1..], ptt, vox)
        case Mute(_) => Apart(queue[1..], ptt, vox)
        case Tune(_) => Apart(queue[1..], ptt, vox))
  }

  lemma {:induction false} ApartLess(queue: seq<Task>, ptt: bool, vox: bool, ptt': bool, vox': bool)
    requires Apart(queue, ptt, vox) && (ptt' ==> ptt) && (vox' ==> vox)
    ensures Apart(queue, ptt', vox')
  {
    if queue != [] {
      match queue[0]
      case Start(who) =>
        if who.Ptt? {
          ApartLess(queue[1..], true, vox, true, vox');
        } else {
          ApartLess(queue[1..], ptt, true, ptt', true);
        }
      case Stop(who) =>
        if who.Ptt? {
          ApartLess(queue[1..], false, vox, false, vox');
        } else {
          ApartLess(queue[1..], ptt, false, ptt', false);
        }
      case Deliver(_, _) => ApartLess(queue[1..], ptt, vox, ptt', vox');
      case Mute(_) => ApartLess(queue[1..], ptt, vox, ptt', vox');
      case Tune(_) => ApartLess(queue[1..], ptt, vox, ptt', vox');
    }
  }

  /** A task at the end of the queue meets what the queue leaves behind. */
  lemma {:induction false} ApartSnoc(queue: seq<Task>, task: Task, ptt: bool, vox: bool)
    requires Apart(queue, ptt, vox)
    requires (task == Start(Ptt) || task == Stop(Ptt)) ==> !Eventually(queue, Vox, vox)
    requires (task == Start(Vox) || task == Stop(Vox)) ==> !Eventually(queue, Ptt, ptt)
    ensures Apart(queue + [task], ptt, vox)
  {
    if queue == [] {
      assert queue + [task] == [task];
      assert [task][1..] == [];
    } else {
      assert (queue + [task])[1..] == queue[1..] + [task];
      EventuallyFirst(queue, Ptt, ptt);
      EventuallyFirst(queue, Vox, vox);
      match queue[0]
      case Start(who) =>
        if who.Ptt? { ApartSnoc(queue[1..], task, true, vox); } else { ApartSnoc(queue[1..], task, ptt, true); }
      case Stop(who) =>
        if who.Ptt? { ApartSnoc(queue[1..], task, false, vox); } else { ApartSnoc(queue[1..], task, ptt, false); }
      case Deliver(_, _) => ApartSnoc(queue[1..], task, ptt, vox);
      case Mute(_) => ApartSnoc(queue[1..], task, ptt, vox);
      case Tune(_) => ApartSnoc(queue[1..], task, ptt, vox);
    }
  }

  /** The switching discipline of the connection store: a transmitter is started only while the other one's flag is
      down. */
  predicate Exclusive(s: State, a: Turn) {
    a.PressStart? ==> !(if a.who.Ptt? then s.vox.flag else s.ptt.flag)
  }

  predicate Disciplined(config: Config, turns: seq<Turn>) {
    turns == []
    || (var before := turns[..|turns| - 1];
        && Disciplined(config, before)
        && Exclusive(Run(config, before), turns[|turns| - 1])
        && !StaleHop(Run(config, before), turns[|turns| - 1]))
  }

  /** A stop that has not been queued yet still has its flag. */
  predicate Halting(s: State) {
    s.stopping.Some? ==> s.Of(s.stopping.value).flag
  }

  lemma HaltingStep(s: State, a: Turn)
    requires Halting(s)
    ensures Halting(Step(s, a))
  {
    hide RunGate, Eventually, Cleared, Muted;
    if a.Worker? {
      WorkerWillRun(s, a.ok, a.recent, Ptt);
      WorkerWillRun(s, a.ok, a.recent, Vox);
      WorkerMain(s, a.ok, a.recent);
    }
  }

  lemma WorkerMain(s: State, ok: bool, recent: bool)
    ensures DoWorker(s, ok, recent).stopping == s.stopping
  {
    hide Next, Cleared, Muted, Sends;
  }

  ghost predicate Separate(s: State) {
    && !(s.ptt.flag && s.vox.flag)
    && Apart(s.queue, s.ptt.running, s.vox.running)
    && Shared(s.log)
  }

  lemma SeparateEnqueue(s: State, t: State, task: Task)
    requires Separate(s) && t.queue == s.queue + [task] && t.log == s.log
    requires t.ptt.running == s.ptt.running && t.vox.running == s.vox.running && !(t.ptt.flag && t.vox.flag)
    requires (task == Start(Ptt) || task == Stop(Ptt)) ==> !WillRun(s, Vox)
    requires (task == Start(Vox) || task == Stop(Vox)) ==> !WillRun(s, Ptt)
    ensures Separate(t)
  {
    hide Eventually, Shared;
    ApartSnoc(s.queue, task, s.ptt.running, s.vox.running);
  }

  lemma AirCases(air: Option<Who>)
    ensures air == None || air == Some(Ptt) || air == Some(Vox)
  {
    if air.Some? {
      match air.value
      case Ptt =>
      case Vox =>
    }
  }

  lemma NobodyOnAir(log: seq<Call>)
    requires Shared(log) && !OnAir(log, Ptt) && !OnAir(log, Vox)
    ensures Air(log) == None
  {
    hide Air, OnAir, Shared;
    AirIsOnAir(log, Ptt);
    AirIsOnAir(log, Vox);
    AirCases(Air(log));
  }

  /** A stop of one side while the other side is silent. */
  lemma StopAdmissible(log: seq<Call>, who: Who)
    requires Shared(log) && !OnAir(log, if who.Ptt? then Vox else Ptt)
    requires who.Vox? ==> OnAir(log, Vox)
    ensures Shared(log + [StopTransmit(who)])
  {
    hide Air, OnAir, Shared;
    AirIsOnAir(log, Ptt);
    AirIsOnAir(log, Vox);
    AirCases(Air(log));
    SharedOne(log, StopTransmit(who));
  }

  lemma PttStartAdmissible(log: seq<Call>)
    requires Shared(log) && !OnAir(log, Ptt) && !OnAir(log, Vox)
    ensures Shared(log + [Began(Ptt)] + [StartTransmit(Ptt)])
  {
    hide Air, OnAir, Shared;
    NobodyOnAir(log);
    SharedOne(log, Began(Ptt));
    AirBegan(log, Ptt);
    SharedOne(log + [Began(Ptt)], StartTransmit(Ptt));
  }

  lemma SeparateStart(s: State, who: Who, ok: bool)
    requires Shared(s.log) && GateFits(s) && !(s.ptt.flag && s.vox.flag)
    requires !(if who.Ptt? then s.vox.running else s.ptt.running)
    requires Apart(s.queue, who.Ptt? || s.ptt.running, who.Vox? || s.vox.running)
    ensures Separate(RunStart(s, who, ok))
  {
    hide Shared, OnAir, Apart;
    ApartLess(s.queue, who.Ptt? || s.ptt.running, who.Vox? || s.vox.running, s.ptt.running, s.vox.running);
    if !s.Of(who).running {
      if who.Ptt? {
        PttStartAdmissible(s.log);
        StopAdmissible(s.log, Ptt);
      } else {
        SharedOne(s.log, Began(Vox));
      }
    }
  }

  lemma SeparateStop(s: State, who: Who)
    requires Shared(s.log) && GateFits(s) && !(s.ptt.flag && s.vox.flag)
    requires !(if who.Ptt? then s.vox.running else s.ptt.running)
    requires Apart(s.queue, who.Vox? && s.ptt.running, who.Ptt? && s.vox.running)
    ensures Separate(RunStop(s, who))
  {
    hide Shared, OnAir, Apart, Cleared;
    if who.Ptt? || s.gateOpen {
      StopAdmissible(s.log, who);
    }
  }

  lemma SeparateMute(s: State, value: bool)
    requires Separate(s) && GateFits(s)
    ensures Separate(RunMute(s, value))
  {
    hide Shared, OnAir, Apart, Cleared;
    NotBoth(s);
    if s.gateOpen {
      StopAdmissible(s.log, Vox);
    }
  }

  /** Tasks of the worker: what the client hears from one side it hears while the other side is silent. */
  lemma SeparateTask(s: State, ok: bool, recent: bool)
    requires Separate(s) && Fits(s) && s.work.Free? && s.queue != []
    ensures Separate(DoWorker(s, ok, recent))
  {
    hide Shared, OnAir, SideFits, RunStart, RunStop, RunMute;
    var t := s.(queue := s.queue[1..]);
    assert GateFits(t);
    match s.queue[0]
    case Start(who) => SeparateStart(t, who, ok);
    case Stop(who) => SeparateStop(t, who);
    case Deliver(who, packet) =>
    case Mute(value) => SeparateMute(t, value);
    case Tune(threshold) =>
  }

  lemma AirBegan(log: seq<Call>, who: Who)
    ensures Air(log + [Began(who)]) == Air(log)
  {
    assert (log + [Began(who)])[..|log|] == log;
  }

  lemma {:induction false} SharedSends(log: seq<Call>, who: Who, chunks: seq<Chunk>)
    requires Shared(log) && Air(log) == Some(who)
    ensures Shared(log + Sends(who, chunks)) && Air(log + Sends(who, chunks)) == Some(who)
  {
    if chunks == [] {
      assert log + Sends(who, chunks) == log;
    } else {
      var n := |chunks| - 1;
      SharedSends(log, who, chunks[..n]);
      var before := log + Sends(who, chunks[..n]);
      assert log + Sends(who, chunks) == before + [SendPCM(who, chunks[n])];
      assert (before + [SendPCM(who, chunks[n])])[..|before|] == before;
      SharedOne(before, SendPCM(who, chunks[n]));
    }
  }

  lemma SeparateDelivery(s: State)
    requires Separate(s) && Fits(s) && s.work.Busy?
    ensures Separate(RunDelivery(s))
  {
    hide Shared, Air, OnAir, Safe, Sessions, Next, Apart;
    AirIsOnAir(s.log, Ptt);
    AirIsOnAir(s.log, Vox);
    var c := s.work.packet.chunk;
    if s.work.go && !s.work.delivered {
      NotBoth(s);
      if s.work.who.Ptt? {
        SharedOne(s.log, SendPCM(Ptt, c));
      } else {
        GateStep(s.gate, c);
        match Next(s.gate, c).action
        case Idle =>
        case Open(flush) =>
          NobodyOnAir(s.log);
          SharedOne(s.log, StartTransmit(Vox));
          AirStarted(s.log, Vox);
          SharedSends(s.log + [StartTransmit(Vox)], Vox, flush);
        case Transmit(d) => SharedOne(s.log, SendPCM(Vox, d));
        case Close => SharedOne(s.log, StopTransmit(Vox));
      }
    }
  }

  lemma AirStarted(log: seq<Call>, who: Who)
    ensures Air(log + [StartTransmit(who)]) == Some(who)
  {
  }

  lemma NotBoth(s: State)
    requires Separate(s)
    ensures !(s.ptt.running && s.vox.running)
  {
  }

  lemma SeparateStep(s: State, a: Turn)
    requires Separate(s) && Fits(s) && Flagged(s) && Halting(s) && Exclusive(s, a)
    ensures Separate(Step(s, a))
  {
    hide Fits, Apart, Shared, Eventually, RunDelivery, RunTask;
    match a
    case PressStart(who, microphone) =>
      if DoPressStart(s, who, microphone) != s {
        SeparateEnqueue(s, Step(s, a), Start(who));
      }
    case PressStop(who) =>
    case QueueStop =>
      if s.stopping.Some? {
        SeparateEnqueue(s, Step(s, a), Stop(s.stopping.value));
      }
    case SetMuted(value) => SeparateEnqueue(s, Step(s, a), Mute(value));
    case SetThreshold(threshold) => SeparateEnqueue(s, Step(s, a), Tune(threshold));
    case Hop =>
    case Tap(who, samples, rate, level) =>
    case TapEnqueue(who) =>
      if s.Of(who).inflight.Some? {
        SeparateEnqueue(s, Step(s, a), Deliver(who, s.Of(who).inflight.value));
      }
    case Worker(ok, recent) =>
      if s.work.Busy? {
        SeparateDelivery(s);
      } else if s.queue != [] {
        SeparateTask(s, ok, recent);
      }
  }

  lemma {:induction false} DisciplinedRun(config: Config, turns: seq<Turn>)
    requires Disciplined(config, turns)
    ensures Flagged(Run(config, turns)) && Halting(Run(config, turns)) && Separate(Run(config, turns))
  {
    hide Step, Initial, Flagged, Halting, Separate, Exclusive, StaleHop;
    if turns == [] {
      InitiallyFlagged(config);
      InitiallySeparate(config);
    } else {
      var before := turns[..|turns| - 1];
      DisciplinedRun(config, before);
      AlwaysFits(config, before);
      FlagStep(Run(config, before), turns[|turns| - 1]);
      HaltingStep(Run(config, before), turns[|turns| - 1]);
      SeparateStep(Run(config, before), turns[|turns| - 1]);
    }
  }

  lemma InitiallySeparate(config: Config)
    ensures Halting(Initial(config)) && Separate(Initial(config))
  {
  }

  /** Switching between push-to-talk and voice activation, in any disciplined run without a stale error block, keeps
      the shared client's calls bracketed as if there were one transmitter: the common worker queue orders the old
      one's stop before the new one's start. */
  lemma SwitchingIsSafe(config: Config, turns: seq<Turn>)
    requires Disciplined(config, turns)
    ensures Shared(Run(config, turns).log)
  {
    DisciplinedRun(config, turns);
  }

  // ----- what an overtaken error block does to the other transmitter

  /** Push-to-talk is on the air and nobody knows: its flag is down, and the voice-activated side is idle. */
  predicate Unnoticed(s: State) {
    && s.queue == [] && s.work.Free? && s.stopping == None
    && s.ptt.running && !s.ptt.flag && OnAir(s.log, Ptt)
    && !s.vox.flag && !s.vox.running && s.vox.inflight == None && !s.gate.muted
  }

  /** Voice activation starts, and a first loud chunk of a tenth of a second arrives. */
  function LoudStart(s: State): State {
    var started := Step(Step(s, PressStart(Vox, true)), Worker(true, true));
    var captured := Step(Step(started, Tap(Vox, 1, 10, s.gate.config.openThreshold)), TapEnqueue(Vox));
    Step(Step(captured, Worker(true, true)), Worker(true, true))
  }

  lemma LoudStartOpens(s: State)
    requires Unnoticed(s)
    ensures exists flush :: LoudStart(s).log == s.log + [Began(Vox)] + [StartTransmit(Vox)] + Sends(Vox, flush)
  {
    hide OnAir, Sends, Prune;
    var s1 := Step(s, PressStart(Vox, true));
    assert s1.queue == [Start(Vox)] && s1.queue[1..] == [];
    var s2 := Step(s1, Worker(true, true));
    assert s2.queue == [] && s2.vox.running && s2.vox.delivery == Begun(s.vox.delivery) && s2.gate == Cleared(s.gate);
    var threshold := s.gate.config.openThreshold;
    var s3 := Step(s2, Tap(Vox, 1, 10, threshold));
    assert 1 as real / 10 as real <= LIMIT;
    assert s3.vox.inflight.Some? && s3.vox.inflight.value.chunk.level == threshold;
    var s4 := Step(s3, TapEnqueue(Vox));
    var packet := s3.vox.inflight.value;
    assert s4.queue == [Deliver(Vox, packet)] && s4.queue[1..] == [];
    var s5 := Step(s4, Worker(true, true));
    assert s5.work == Busy(Vox, packet, true, false) && s5.log == s.log + [Began(Vox)] && s5.gate == s2.gate;
    var s6 := Step(s5, Worker(true, true));
    assert Next(s5.gate, packet.chunk).action.Open?;
    assert s6.log == s5.log + [StartTransmit(Vox)] + Sends(Vox, Next(s5.gate, packet.chunk).action.flush);
  }

  lemma {:induction false} SharedPrefix(log: seq<Call>, more: seq<Call>)
    requires Shared(log + more)
    ensures Shared(log)
    decreases |more|
  {
    if more == [] {
      assert log + more == log;
    } else {
      assert (log + more)[..|log + more| - 1] == log + more[..|more| - 1];
      SharedPrefix(log, more[..|more| - 1]);
    }
  }

  /** Sharing is lost: the voice-activated side starts while push-to-talk is on the air. */
  lemma UnnoticedIsUnsafe(s: State)
    requires Unnoticed(s)
    ensures !Shared(LoudStart(s).log)
  {
    hide LoudStart, OnAir, Sends, Air, Shared;
    LoudStartOpens(s);
    var flush :| LoudStart(s).log == s.log + [Began(Vox)] + [StartTransmit(Vox)] + Sends(Vox, flush);
    var before := s.log + [Began(Vox)];
    if Shared(LoudStart(s).log) {
      SharedPrefix(before + [StartTransmit(Vox)], Sends(Vox, flush));
      SharedOne(before, StartTransmit(Vox));
      SharedOne(s.log, Began(Vox));
      AirBegan(s.log, Vox);
      AirIsOnAir(s.log, Ptt);
    }
  }

  lemma OvertakenUnnoticed(s: State)
    requires Overtaken(s) && !s.vox.flag && !s.vox.running && s.vox.inflight == None && !s.gate.muted
    ensures Unnoticed(Step(Step(Step(s, Worker(true, true)), Worker(true, true)), Hop))
  {
    hide OnAir, Cleared;
    OvertakenLeavesItOn(s);
    var s1 := Step(s, Worker(true, true));
    assert s1.queue == [Start(Ptt)] && s1.queue[1..] == [] && s1.work.Free? && s1.stopping == None;
    var s2 := Step(s1, Worker(true, true));
    assert s2.queue == [] && s2.hops == [Ptt] && s2.work.Free? && s2.stopping == None;
  }
}
