/** What is sent, exactly, over every interleaving. The worker takes every captured chunk off its queue once and in
    order; push-to-talk sends each one that passes the check, and voice activation what the gate's answers name. */
module CaptureDelivered {
  import opened VoxGate
  import opened VoxTiming
  import opened VoxRuns
  import opened CaptureSystem
  import opened CaptureSafety
  import opened CaptureOrder

  /** In this turn the worker takes a delivery of this transmitter off the queue and checks it. */
  predicate Takes(s: State, a: Turn, who: Who) {
    a.Worker? && s.work.Free? && s.queue != [] && s.queue[0].Deliver? && s.queue[0].who == who
  }

  /** The check succeeds: the capture is on, the session is the one that recorded the chunk, and the chunk is recent. */
  predicate Passes(s: State, a: Turn, who: Who) {
    && Takes(s, a, who) && a.recent
    && s.Of(who).delivery.active && s.queue[0].packet.token == s.Of(who).delivery.generation
  }

  /** In this turn a chunk that has passed reaches the transmitter. */
  predicate Gives(s: State, a: Turn, who: Who) {
    a.Worker? && s.work.Busy? && s.work.who == who && s.work.go && !s.work.delivered
  }

  /** The chunks an answer of the gate says to send. */
  function Named(action: Action): seq<Chunk> {
    match action
    case Idle | Close => []
    case Open(flush) => flush
    case Transmit(chunk) => [chunk]
  }

  function NowTaken(s: State, a: Turn, who: Who): seq<Chunk> {
    if Takes(s, a, who) then [s.queue[0].packet.chunk] else []
  }

  function NowPassed(s: State, a: Turn, who: Who): seq<Chunk> {
    if Passes(s, a, who) then [s.queue[0].packet.chunk] else []
  }

  function NowGiven(s: State, a: Turn, who: Who): seq<Chunk> {
    if Gives(s, a, who) then [s.work.packet.chunk] else []
  }

  /** The chunks that the gate's answer says to send. */
  function NowNamed(s: State, a: Turn): seq<Chunk> {
    if Gives(s, a, Vox) then Named(Next(s.gate, s.work.packet.chunk).action) else []
  }

  function Taken(config: Config, turns: seq<Turn>, who: Who): seq<Chunk> {
    if turns == [] then []
    else
      var n := |turns| - 1;
      Taken(config, turns[..n], who) + NowTaken(Run(config, turns[..n]), turns[n], who)
  }

  function Passed(config: Config, turns: seq<Turn>, who: Who): seq<Chunk> {
    if turns == [] then []
    else
      var n := |turns| - 1;
      Passed(config, turns[..n], who) + NowPassed(Run(config, turns[..n]), turns[n], who)
  }

  function Given(config: Config, turns: seq<Turn>, who: Who): seq<Chunk> {
    if turns == [] then []
    else
      var n := |turns| - 1;
      Given(config, turns[..n], who) + NowGiven(Run(config, turns[..n]), turns[n], who)
  }

  /** The chunk that has passed and whose delivery has not run. */
  function Waiting(w: Work, who: Who): seq<Chunk> {
    if w.Busy? && w.who == who && w.go && !w.delivered then [w.packet.chunk] else []
  }

  function AllNamed(actions: seq<Action>): seq<Chunk> {
    if actions == [] then [] else AllNamed(actions[..|actions| - 1]) + Named(actions[|actions| - 1])
  }

  function Answered(config: Config, turns: seq<Turn>): seq<Chunk> {
    if turns == [] then []
    else
      var n := |turns| - 1;
      Answered(config, turns[..n]) + NowNamed(Run(config, turns[..n]), turns[n])
  }

  // ----- one turn

  /** What a turn does to the log: only a delivery sends. */
  lemma SilentTurn(s: State, a: Turn, who: Who)
    requires !(a.Worker? && s.work.Busy? && !s.work.delivered)
    ensures Sent(Step(s, a).log, who) == Sent(s.log, who)
  {
    hide Sent, RunStart, RunStop, RunMute, RunTune, RunGate;
    if a.Worker? && s.work.Free? && s.queue != [] && !s.queue[0].Deliver? {
      TaskLog(s.(queue := s.queue[1..]), s.queue[0], a.ok, a.recent, who);
    }
  }

  /** Only the worker sends, and only what it was given. */
  lemma SentStep(s: State, a: Turn, who: Who)
    ensures Sent(Step(s, a).log, who)
            == Sent(s.log, who) + (if who.Ptt? then NowGiven(s, a, Ptt) else NowNamed(s, a))
  {
    hide Sent, Next, RunTask, RunDelivery, Named;
    if a.Worker? && s.work.Busy? && !s.work.delivered {
      SentDelivery(s, who);
    } else {
      SilentTurn(s, a, who);
      assert Sent(s.log, who) + [] == Sent(s.log, who);
    }
  }

  lemma SentDelivery(s: State, who: Who)
    requires s.work.Busy? && !s.work.delivered
    ensures Sent(RunDelivery(s).log, who)
            == Sent(s.log, who)
               + (if s.work.who != who || !s.work.go then []
                  else if who.Ptt? then [s.work.packet.chunk]
                  else Named(Next(s.gate, s.work.packet.chunk).action))
  {
    hide Sent, Next, RunGate;
    var c := s.work.packet.chunk;
    assert Sent(s.log, who) + [] == Sent(s.log, who);
    SentSnoc(s.log, SendPCM(Ptt, c), who);
    GateLog(s.(work := s.work.(delivered := true)), c, who);
  }

  /** On its way to the check: queued, or in the tap's hands. */
  function Coming(s: State, who: Who): seq<Chunk> {
    Queued(s.queue, who) + Tapped(s.Of(who))
  }

  /** Outside the worker, a new chunk joins those on their way, and nothing leaves. */
  lemma ComingStep(s: State, a: Turn, who: Who)
    requires !a.Worker?
    ensures var t := Step(s, a);
            exists more :: t.Of(who).captured == s.Of(who).captured + more && Coming(t, who) == Coming(s, who) + more
  {
    hide Queued, DoTap, Coming, DoTapEnqueue;
    var t := Step(s, a);
    if a.Tap? {
      ComingTap(s, a.who, a.samples, a.rate, a.level, who);
    } else {
      if a.TapEnqueue? {
        ComingEnqueue(s, a.who, who);
      } else {
        ComingOther(s, a, who);
      }
      assert t.Of(who).captured == s.Of(who).captured + [] && Coming(t, who) == Coming(s, who) + [];
    }
  }

  lemma ComingTap(s: State, w: Who, samples: nat, rate: nat, level: real, who: Who)
    ensures var t := DoTap(s, w, samples, rate, level);
            exists more :: t.Of(who).captured == s.Of(who).captured + more && Coming(t, who) == Coming(s, who) + more
  {
    hide Queued;
    var t := DoTap(s, w, samples, rate, level);
    var more := if t.Of(who).inflight == s.Of(who).inflight then [] else Tapped(t.Of(who));
    assert t.Of(who).captured == s.Of(who).captured + more;
    assert Coming(t, who) == Coming(s, who) + more;
  }

  lemma ComingEnqueue(s: State, w: Who, who: Who)
    ensures var t := DoTapEnqueue(s, w);
            t.Of(who).captured == s.Of(who).captured && Coming(t, who) == Coming(s, who)
  {
    hide Queued;
    if s.Of(w).inflight.Some? {
      QueuedSnoc(s.queue, Deliver(w, s.Of(w).inflight.value), who);
    }
  }

  lemma ComingSame(s: State, t: State, who: Who)
    requires t.Of(who).captured == s.Of(who).captured && t.Of(who).inflight == s.Of(who).inflight
    requires t.queue == s.queue
             || (|t.queue| == |s.queue| + 1 && t.queue == s.queue + [t.queue[|s.queue|]]
                 && !t.queue[|s.queue|].Deliver?)
    ensures Coming(t, who) == Coming(s, who)
  {
    hide Queued;
    if t.queue != s.queue {
      QueuedSnoc(s.queue, t.queue[|s.queue|], who);
    }
  }

  lemma ComingOther(s: State, a: Turn, who: Who)
    requires !a.Worker? && !a.Tap? && !a.TapEnqueue?
    ensures var t := Step(s, a);
            t.Of(who).captured == s.Of(who).captured && Coming(t, who) == Coming(s, who)
  {
    hide Coming;
    ComingSame(s, Step(s, a), who);
  }

  /** The worker takes the first one. */
  lemma TakingStep(s: State, a: Turn, who: Who)
    requires a.Worker?
    ensures var t := Step(s, a); (
              && t.Of(who).captured == s.Of(who).captured
              && Coming(s, who) == NowTaken(s, a, who) + Coming(t, who))
  {
    hide Queued, RunTask, RunDelivery;
    var t := Step(s, a);
    if s.work.Busy? {
      DeliveryKeeps(s, who);
      TakenFrom(s, t, [], who);
    } else if s.queue != [] {
      QueuedFirst(s.queue, who);
      TaskKeeps(s.(queue := s.queue[1..]), s.queue[0], a.ok, a.recent, who);
      TakenFrom(s, t, NowTaken(s, a, who), who);
    } else {
      TakenFrom(s, t, [], who);
    }
  }

  lemma TakenFrom(s: State, t: State, first: seq<Chunk>, who: Who)
    requires Queued(s.queue, who) == first + Queued(t.queue, who) && t.Of(who).inflight == s.Of(who).inflight
    ensures Coming(s, who) == first + Coming(t, who)
  {
    hide Queued;
  }

  lemma TaskKeeps(s: State, task: Task, ok: bool, recent: bool, who: Who)
    ensures var t := RunTask(s, task, ok, recent); (
              && t.queue == s.queue
              && t.Of(who).captured == s.Of(who).captured && t.Of(who).inflight == s.Of(who).inflight
              && t.work == if task.Deliver?
                           then Busy(task.who, task.packet, recent && s.Of(task.who).delivery.active
                                     && task.packet.token == s.Of(task.who).delivery.generation, false)
                           else s.work)
  {
    hide RunStart, RunStop, RunMute, RunTune;
    if !task.Deliver? {
      TaskLog(s, task, ok, recent, who);
    }
  }

  lemma DeliveryKeeps(s: State, who: Who)
    requires s.work.Busy?
    ensures var t := RunDelivery(s); (
              && t.queue == s.queue
              && t.Of(who).captured == s.Of(who).captured && t.Of(who).inflight == s.Of(who).inflight
              && t.work == if s.work.delivered then Free else s.work.(delivered := true))
  {
    hide RunGate;
    GateLog(s.(work := s.work.(delivered := true)), s.work.packet.chunk, who);
  }

  /** A chunk that passes waits for its delivery, which the worker runs in its next turn. */
  lemma WaitingStep(s: State, a: Turn, who: Who)
    ensures NowGiven(s, a, who) + Waiting(Step(s, a).work, who) == Waiting(s.work, who) + NowPassed(s, a, who)
  {
    hide RunTask, RunDelivery;
    if a.Worker? {
      if s.work.Busy? {
        DeliveryKeeps(s, who);
      } else if s.queue != [] {
        TaskKeeps(s.(queue := s.queue[1..]), s.queue[0], a.ok, a.recent, who);
      }
    }
  }

  // ----- every run

  /** Push-to-talk sends the chunks it is given, once each and in order, and nothing else. */
  lemma {:induction false} PttSendsGiven(config: Config, turns: seq<Turn>)
    ensures Sent(Run(config, turns).log, Ptt) == Given(config, turns, Ptt)
  {
    hide Step, Sent, NowGiven;
    if turns != [] {
      var n := |turns| - 1;
      PttSendsGiven(config, turns[..n]);
      SentStep(Run(config, turns[..n]), turns[n], Ptt);
    } else {
      NothingYet(config, Ptt);
    }
  }

  /** Voice activation sends what the gate's answers to the chunks it is given name, once each and in order. */
  lemma {:induction false} VoxSendsAnswers(config: Config, turns: seq<Turn>)
    ensures Sent(Run(config, turns).log, Vox) == Answered(config, turns)
  {
    hide Step, Sent, NowNamed;
    if turns != [] {
      var n := |turns| - 1;
      VoxSendsAnswers(config, turns[..n]);
      SentStep(Run(config, turns[..n]), turns[n], Vox);
    } else {
      NothingYet(config, Vox);
    }
  }

  lemma NothingYet(config: Config, who: Who)
    ensures var s := Initial(config);
            Sent(s.log, who) == [] && s.work == Free && s.Of(who).captured == [] && s.queue == []
            && Tapped(s.Of(who)) == [] && Queued(s.queue, who) == []
  {
  }

  /** A transmitter is given exactly the chunks that pass; at most the last one is still to come. */
  lemma {:induction false} GivenIsPassed(config: Config, turns: seq<Turn>, who: Who)
    ensures Given(config, turns, who) + Waiting(Run(config, turns).work, who) == Passed(config, turns, who)
  {
    hide Step, NowGiven, NowPassed, Waiting;
    if turns != [] {
      var n := |turns| - 1;
      var s := Run(config, turns[..n]);
      GivenIsPassed(config, turns[..n], who);
      WaitingStep(s, turns[n], who);
      var given, waits := Given(config, turns[..n], who), Waiting(Run(config, turns).work, who);
      assert Given(config, turns, who) + waits == given + (NowGiven(s, turns[n], who) + waits);
    } else {
      NothingYet(config, who);
      assert Waiting(Free, who) == [] by { NothingWaits(who); }
    }
  }

  lemma NothingWaits(who: Who)
    ensures Waiting(Free, who) == []
  {
  }

  /** No chunk is lost before the check: what was captured has been taken, is queued, or is in the tap's hands. */
  lemma {:induction false} CapturedIsTaken(config: Config, turns: seq<Turn>, who: Who)
    ensures var s := Run(config, turns);
            s.Of(who).captured == Taken(config, turns, who) + Coming(s, who)
  {
    hide Step, Coming, NowTaken;
    if turns != [] {
      var n := |turns| - 1;
      CapturedIsTaken(config, turns[..n], who);
      var s := Run(config, turns[..n]);
      if turns[n].Worker? {
        TakingStep(s, turns[n], who);
      } else {
        ComingStep(s, turns[n], who);
        var more :| Run(config, turns).Of(who).captured == s.Of(who).captured + more
                    && Coming(Run(config, turns), who) == Coming(s, who) + more;
        assert NowTaken(s, turns[n], who) == [] by {
          NoneTaken(s, turns[n], who);
        }
        assert Taken(config, turns, who) == Taken(config, turns[..n], who);
      }
    } else {
      NothingYet(config, who);
      assert Coming(Initial(config), who) == [] by { NothingComes(config, who); }
    }
  }

  lemma NoneTaken(s: State, a: Turn, who: Who)
    requires !a.Worker?
    ensures NowTaken(s, a, who) == []
  {
  }

  lemma NothingComes(config: Config, who: Who)
    ensures Coming(Initial(config), who) == []
  {
  }

  /** Every check of this transmitter in the run succeeds. */
  ghost predicate AllPass(config: Config, turns: seq<Turn>, who: Who) {
    forall k :: 0 <= k < |turns| && Takes(Run(config, turns[..k]), turns[k], who) ==>
      Passes(Run(config, turns[..k]), turns[k], who)
  }

  lemma AllPassSnoc(config: Config, turns: seq<Turn>, who: Who)
    requires turns != []
    ensures var n := |turns| - 1; var s := Run(config, turns[..n]); (
              AllPass(config, turns, who)
              <==> AllPass(config, turns[..n], who) && (Takes(s, turns[n], who) ==> Passes(s, turns[n], who)))
  {
    hide Run, Takes, Passes;
    var n := |turns| - 1;
    forall k | 0 <= k < n
      ensures turns[..n][..k] == turns[..k]
    {
    }
    if AllPass(config, turns[..n], who)
      && (Takes(Run(config, turns[..n]), turns[n], who) ==> Passes(Run(config, turns[..n]), turns[n], who)) {
      forall k | 0 <= k < |turns| && Takes(Run(config, turns[..k]), turns[k], who)
        ensures Passes(Run(config, turns[..k]), turns[k], who)
      {
        if k < n {
          assert turns[..n][k] == turns[k];
        }
      }
    }
    if AllPass(config, turns, who) {
      forall k | 0 <= k < n && Takes(Run(config, turns[..n][..k]), turns[..n][k], who)
        ensures Passes(Run(config, turns[..n][..k]), turns[..n][k], who)
      {
        assert turns[..n][k] == turns[k];
      }
    }
  }

  lemma PassedNowIff(s: State, a: Turn, who: Who)
    ensures |NowPassed(s, a, who)| <= |NowTaken(s, a, who)| <= 1
    ensures NowPassed(s, a, who) == NowTaken(s, a, who) <==> (Takes(s, a, who) ==> Passes(s, a, who))
  {
  }

  lemma OneMore<T>(a: seq<T>, b: seq<T>, x: seq<T>, y: seq<T>)
    requires |a| <= |b| && |x| <= |y|
    ensures a + x == b + y <==> a == b && x == y
  {
    if a + x == b + y {
      assert |a| == |b| && (a + x)[..|a|] == a && (b + y)[..|a|] == b;
      assert (a + x)[|a|..] == x && (b + y)[|a|..] == y;
    }
  }

  lemma {:induction false} PassedIsTakenIff(config: Config, turns: seq<Turn>, who: Who)
    ensures |Passed(config, turns, who)| <= |Taken(config, turns, who)|
    ensures Passed(config, turns, who) == Taken(config, turns, who) <==> AllPass(config, turns, who)
  {
    hide AllPass, Run, NowTaken, NowPassed, Takes, Passes;
    if turns != [] {
      var n := |turns| - 1;
      PassedIsTakenIff(config, turns[..n], who);
      AllPassSnoc(config, turns, who);
      var s := Run(config, turns[..n]);
      PassedNowIff(s, turns[n], who);
      OneMore(Passed(config, turns[..n], who), Taken(config, turns[..n], who), NowPassed(s, turns[n], who),
              NowTaken(s, turns[n], who));
    } else {
      assert AllPass(config, turns, who) by {
        NoChecks(config, who);
      }
    }
  }

  lemma NoChecks(config: Config, who: Who)
    ensures AllPass(config, [], who)
  {
  }

  /** Nothing of this transmitter is on its way. */
  predicate Drained(s: State, who: Who) {
    Waiting(s.work, who) == [] && Coming(s, who) == []
  }

  /** In every run that has drained, push-to-talk has sent exactly the chunks that passed, and everything it captured
      exactly if every check succeeded. */
  lemma PttSendsAllIff(config: Config, turns: seq<Turn>)
    requires Drained(Run(config, turns), Ptt)
    ensures var s := Run(config, turns); (
              && Sent(s.log, Ptt) == Passed(config, turns, Ptt)
              && (Sent(s.log, Ptt) == s.ptt.captured <==> AllPass(config, turns, Ptt)))
  {
    hide Run, Sent, Given, Passed, Taken, AllPass, Waiting, Coming;
    PttSendsGiven(config, turns);
    GivenIsPassed(config, turns, Ptt);
    CapturedIsTaken(config, turns, Ptt);
    PassedIsTakenIff(config, turns, Ptt);
    var s := Run(config, turns);
    assert Given(config, turns, Ptt) + [] == Given(config, turns, Ptt);
    assert Taken(config, turns, Ptt) + [] == Taken(config, turns, Ptt);
  }

  // ----- when every check succeeds

  predicate OfSession(side: Side, token: nat) {
    side.running && side.delivery.active && token == side.delivery.generation
  }

  predicate Calm(side: Side, who: Who, task: Task) {
    task != Stop(who) && (task.Deliver? && task.who == who ==> OfSession(side, task.packet.token))
  }

  /** While a transmitter is not stopped, every packet on its way is of the present session. */
  ghost predicate Steady(s: State, who: Who) {
    var side := s.Of(who);
    && !(s.stopping.Some? && s.stopping.value == who)
    && (side.delivery.active ==> side.running)
    && (side.inflight.Some? ==> OfSession(side, side.inflight.value.token))
    && (forall i :: 0 <= i < |s.queue| ==> Calm(side, who, s.queue[i]))
  }

  /** A turn that keeps the session, takes the first task or adds one that fits. */
  ghost predicate KeepsSession(s: State, t: State, who: Who) {
    var a, b := s.Of(who), t.Of(who);
    && !(t.stopping.Some? && t.stopping.value == who)
    && b.running == a.running && b.delivery.active == a.delivery.active
    && b.delivery.generation == a.delivery.generation
    && (b.inflight.Some? && b.inflight != a.inflight ==> OfSession(a, b.inflight.value.token))
    && (t.queue == s.queue
        || (s.queue != [] && t.queue == s.queue[1..])
        || exists task :: t.queue == s.queue + [task] && Calm(a, who, task))
  }

  lemma SteadySame(s: State, t: State, who: Who)
    requires Steady(s, who) && KeepsSession(s, t, who)
    ensures Steady(t, who)
  {
    forall i | 0 <= i < |t.queue|
      ensures Calm(t.Of(who), who, t.queue[i])
    {
      if s.queue != [] && t.queue == s.queue[1..] {
        assert Calm(s.Of(who), who, s.queue[i + 1]);
      } else if i < |s.queue| {
        assert Calm(s.Of(who), who, s.queue[i]);
      }
    }
  }

  lemma SteadyOutside(s: State, a: Turn, who: Who)
    requires Steady(s, who) && !a.Worker? && a != PressStop(who)
    ensures Steady(Step(s, a), who)
  {
    hide Steady, Step;
    SteadyMeans(s, who);
    OutsideKeeps(s, a, who);
    SteadySame(s, Step(s, a), who);
  }

  lemma OutsideKeeps(s: State, a: Turn, who: Who)
    requires !a.Worker? && a != PressStop(who)
    requires !(s.stopping.Some? && s.stopping.value == who) && (s.Of(who).delivery.active ==> s.Of(who).running)
    requires s.Of(who).inflight.Some? ==> OfSession(s.Of(who), s.Of(who).inflight.value.token)
    ensures KeepsSession(s, Step(s, a), who)
  {
    hide KeepsSession, DoTap, DoTapEnqueue, DoPressStart, DoQueueStop, Calm;
    match a
    case PressStart(w, microphone) => PressKeeps(s, w, microphone, who);
    case QueueStop => QueueStopKeeps(s, who);
    case SetMuted(value) => OneTask(s, s.(queue := s.queue + [Mute(value)]), Mute(value), who);
    case SetThreshold(threshold) => OneTask(s, s.(queue := s.queue + [Tune(threshold)]), Tune(threshold), who);
    case TapEnqueue(w) => EnqueueKeeps(s, w, who);
    case Tap(w, samples, rate, level) => TapKeeps(s, w, samples, rate, level, who);
    case PressStop(_) | Hop => NoTask(s, Step(s, a), who);
  }

  /** The same session, and the packet in the tap's hands at most gone. */
  predicate SameSession(a: Side, b: Side) {
    && b.running == a.running && b.delivery.active == a.delivery.active
    && b.delivery.generation == a.delivery.generation && (b.inflight == a.inflight || b.inflight.None?)
  }

  lemma NoTask(s: State, t: State, who: Who)
    requires SameSession(s.Of(who), t.Of(who)) && t.queue == s.queue
    requires !(t.stopping.Some? && t.stopping.value == who)
    ensures KeepsSession(s, t, who)
  {
  }

  lemma OneTask(s: State, t: State, task: Task, who: Who)
    requires SameSession(s.Of(who), t.Of(who)) && t.queue == s.queue + [task]
    requires task != Stop(who)
    requires task.Deliver? && task.who == who ==> OfSession(s.Of(who), task.packet.token)
    requires !(t.stopping.Some? && t.stopping.value == who)
    ensures KeepsSession(s, t, who)
  {
    assert Calm(s.Of(who), who, task);
  }

  lemma PressKeeps(s: State, w: Who, microphone: bool, who: Who)
    requires !(s.stopping.Some? && s.stopping.value == who)
    ensures KeepsSession(s, DoPressStart(s, w, microphone), who)
  {
    hide KeepsSession;
    var t := DoPressStart(s, w, microphone);
    if t == s {
      NoTask(s, t, who);
    } else {
      OneTask(s, t, Start(w), who);
    }
  }

  lemma QueueStopKeeps(s: State, who: Who)
    requires !(s.stopping.Some? && s.stopping.value == who)
    ensures KeepsSession(s, DoQueueStop(s), who)
  {
    hide KeepsSession;
    if s.stopping.Some? {
      OneTask(s, DoQueueStop(s), Stop(s.stopping.value), who);
    } else {
      NoTask(s, s, who);
    }
  }

  lemma EnqueueKeeps(s: State, w: Who, who: Who)
    requires !(s.stopping.Some? && s.stopping.value == who)
    requires s.Of(who).inflight.Some? ==> OfSession(s.Of(who), s.Of(who).inflight.value.token)
    ensures KeepsSession(s, DoTapEnqueue(s, w), who)
  {
    hide KeepsSession;
    if s.Of(w).inflight.Some? {
      OneTask(s, DoTapEnqueue(s, w), Deliver(w, s.Of(w).inflight.value), who);
    } else {
      NoTask(s, s, who);
    }
  }

  lemma TapKeeps(s: State, w: Who, samples: nat, rate: nat, level: real, who: Who)
    requires !(s.stopping.Some? && s.stopping.value == who) && (s.Of(who).delivery.active ==> s.Of(who).running)
    ensures KeepsSession(s, DoTap(s, w, samples, rate, level), who)
  {
  }

  lemma SteadyMeans(s: State, who: Who)
    requires Steady(s, who)
    ensures !(s.stopping.Some? && s.stopping.value == who) && (s.Of(who).delivery.active ==> s.Of(who).running)
    ensures s.Of(who).inflight.Some? ==> OfSession(s.Of(who), s.Of(who).inflight.value.token)
    ensures s.queue != [] ==> Calm(s.Of(who), who, s.queue[0])
  {
  }

  lemma SteadyWorker(s: State, a: Turn, who: Who)
    requires Steady(s, who) && a.Worker?
    ensures Steady(Step(s, a), who)
  {
    hide Steady, RunDelivery, RunTask, KeepsSession;
    SteadyMeans(s, who);
    if s.work.Busy? {
      DeliverySession(s, who);
      NoTask(s, Step(s, a), who);
      SteadySame(s, Step(s, a), who);
    } else if s.queue != [] {
      SteadyTask(s, a.ok, a.recent, who);
    }
  }

  lemma DeliverySession(s: State, who: Who)
    requires s.work.Busy?
    ensures var a, b := s.Of(who), RunDelivery(s).Of(who); (
              && b.running == a.running && b.delivery.active == a.delivery.active
              && b.delivery.generation == a.delivery.generation && b.inflight == a.inflight
              && RunDelivery(s).queue == s.queue && RunDelivery(s).stopping == s.stopping)
  {
    hide Next;
  }

  lemma TaskSession(s: State, task: Task, ok: bool, recent: bool, who: Who)
    requires task != Stop(who)
    ensures var t := RunTask(s, task, ok, recent);
            var a, b := s.Of(who), t.Of(who); (
              && b.inflight == a.inflight && t.queue == s.queue && t.stopping == s.stopping
              && ((b.running == a.running && b.delivery.active == a.delivery.active
                   && b.delivery.generation == a.delivery.generation)
                  || (!a.running && b.running)))
  {
  }

  lemma SteadyTask(s: State, ok: bool, recent: bool, who: Who)
    requires Steady(s, who) && s.work.Free? && s.queue != []
    ensures Steady(DoWorker(s, ok, recent), who)
  {
    hide RunTask;
    var rest := s.(queue := s.queue[1..]);
    var t := DoWorker(s, ok, recent);
    assert Calm(s.Of(who), who, s.queue[0]);
    TaskSession(rest, s.queue[0], ok, recent, who);
    if t.Of(who).running == s.Of(who).running {
      SteadySame(s, t, who);
    } else {
      forall i | 0 <= i < |t.queue|
        ensures Calm(t.Of(who), who, t.queue[i])
      {
        assert Calm(s.Of(who), who, s.queue[i + 1]);
      }
    }
  }

  lemma SteadyInitial(config: Config, who: Who)
    ensures Steady(Initial(config), who)
  {
  }

  /** The transmitter is not stopped, and the worker is never late. */
  predicate Undisturbed(turns: seq<Turn>, who: Who) {
    forall k :: 0 <= k < |turns| ==> turns[k] != PressStop(who) && (turns[k].Worker? ==> turns[k].recent)
  }

  lemma {:induction false} AlwaysSteady(config: Config, turns: seq<Turn>, who: Who)
    requires Undisturbed(turns, who)
    ensures Steady(Run(config, turns), who) && AllPass(config, turns, who)
  {
    hide Steady, Step, Initial, AllPass;
    if turns == [] {
      SteadyInitial(config, who);
      NoChecks(config, who);
    } else {
      var n := |turns| - 1;
      var s := Run(config, turns[..n]);
      AlwaysSteady(config, turns[..n], who);
      AllPassSnoc(config, turns, who);
      if turns[n].Worker? {
        SteadyMeans(s, who);
        SteadyWorker(s, turns[n], who);
      } else {
        SteadyOutside(s, turns[n], who);
      }
    }
  }

  /** A push-to-talk transmission during which nothing is stopped and the worker is in time sends, once it has drained,
      every chunk that was captured. */
  lemma PttSendsAll(config: Config, turns: seq<Turn>)
    requires Undisturbed(turns, Ptt) && Drained(Run(config, turns), Ptt)
    ensures Sent(Run(config, turns).log, Ptt) == Run(config, turns).ptt.captured
  {
    hide *;
    AlwaysSteady(config, turns, Ptt);
    PttSendsAllIff(config, turns);
  }

  // ----- the gate behind the queue

  /** The worker runs a task that may change the gate itself. */
  predicate Resets(s: State, a: Turn) {
    a.Worker? && s.work.Free? && s.queue != []
    && (s.queue[0].Mute? || s.queue[0].Tune? || s.queue[0] == Start(Vox) || s.queue[0] == Stop(Vox))
  }

  lemma GateStep(s: State, a: Turn)
    requires !Resets(s, a)
    ensures Step(s, a).gate == if Gives(s, a, Vox) then Next(s.gate, s.work.packet.chunk).gate else s.gate
  {
    hide Next;
    if a.Worker? && s.work.Busy? && !s.work.delivered {
      GateLog(s.(work := s.work.(delivered := true)), s.work.packet.chunk, Vox);
    }
  }

  ghost predicate NoReset(config: Config, turns: seq<Turn>, k: nat) {
    forall i :: k <= i < |turns| ==> !Resets(Run(config, turns[..i]), turns[i])
  }

  /** From any point of a run on, until a task changes the gate: the gate hears the chunks given to voice activation in
      this stretch, in order, as if it stood alone, and what is sent is what its answers name. */
  lemma {:induction false} StretchIsFeed(config: Config, turns: seq<Turn>, k: nat) returns (heard: seq<Chunk>)
    requires k <= |turns| && NoReset(config, turns, k)
    ensures Given(config, turns, Vox) == Given(config, turns[..k], Vox) + heard
    ensures (
      var start, end := Run(config, turns[..k]), Run(config, turns);
      end.gate == Feed(start.gate, heard).gate
      && Sent(end.log, Vox) == Sent(start.log, Vox) + AllNamed(Feed(start.gate, heard).actions))
    decreases |turns|
  {
    hide Step, Sent, Next, Gives, Resets, Named, Feed, AllNamed, NoReset, NowGiven;
    var g := Run(config, turns[..k]).gate;
    if k == |turns| {
      heard := [];
      assert turns[..k] == turns;
      FedNothing(g);
    } else {
      var n := |turns| - 1;
      var s := Run(config, turns[..n]);
      assert turns[..n][..k] == turns[..k];
      NoResetBefore(config, turns, k);
      var before := StretchIsFeed(config, turns[..n], k);
      SentStep(s, turns[n], Vox);
      heard := before + NowGiven(s, turns[n], Vox);
      FedNow(g, before, s, turns[n]);
    }
  }

  lemma NoResetBefore(config: Config, turns: seq<Turn>, k: nat)
    requires k < |turns| && NoReset(config, turns, k)
    ensures NoReset(config, turns[..|turns| - 1], k)
    ensures !Resets(Run(config, turns[..|turns| - 1]), turns[|turns| - 1])
  {
    hide Run, Resets;
    var n := |turns| - 1;
    forall i | k <= i < n
      ensures !Resets(Run(config, turns[..n][..i]), turns[..n][i])
    {
      assert turns[..n][..i] == turns[..i] && turns[..n][i] == turns[i];
    }
  }

  lemma FedNothing(g: Gate)
    ensures Feed(g, []) == Trace(g, []) && AllNamed([]) == []
  {
  }

  lemma FedNow(g: Gate, heard: seq<Chunk>, s: State, a: Turn)
    requires s.gate == Feed(g, heard).gate && !Resets(s, a)
    ensures var more := heard + NowGiven(s, a, Vox); (
              && Feed(g, more).gate == Step(s, a).gate
              && AllNamed(Feed(g, more).actions) == AllNamed(Feed(g, heard).actions) + NowNamed(s, a))
  {
    hide Step, Next, Named, Feed, AllNamed, Resets;
    GateStep(s, a);
    if Gives(s, a, Vox) {
      FedSnoc(g, heard, s.work.packet.chunk);
    } else {
      assert heard + [] == heard;
    }
  }

  lemma FedSnoc(g: Gate, heard: seq<Chunk>, c: Chunk)
    ensures var o := Next(Feed(g, heard).gate, c); (
              && Feed(g, heard + [c]).gate == o.gate
              && AllNamed(Feed(g, heard + [c]).actions) == AllNamed(Feed(g, heard).actions) + Named(o.action))
  {
    hide Next, Named;
    var actions := Feed(g, heard).actions;
    assert (heard + [c])[..|heard|] == heard;
    assert Feed(g, heard + [c]).actions == actions + [Next(Feed(g, heard).gate, c).action];
    assert (actions + [Next(Feed(g, heard).gate, c).action])[..|actions|] == actions;
  }

  /** From a gate at rest, voice activation sends what the reference of VoxRuns names for the chunks given to it. */
  lemma StretchIsReference(config: Config, turns: seq<Turn>, k: nat) returns (heard: seq<Chunk>)
    requires k <= |turns| && NoReset(config, turns, k)
    requires var g := Run(config, turns[..k]).gate; !g.isOpen && !g.muted && g.preroll == []
    ensures Given(config, turns, Vox) == Given(config, turns[..k], Vox) + heard
    ensures Sent(Run(config, turns).log, Vox)
            == Sent(Run(config, turns[..k]).log, Vox) + AllNamed(Answers(heard, Run(config, turns[..k]).gate.config))
  {
    hide *;
    heard := StretchIsFeed(config, turns, k);
    GateRun(Run(config, turns[..k]).gate, heard);
  }

  // ----- mute and threshold

  /** The worker takes this task off the queue. */
  predicate Runs(s: State, a: Turn, task: Task) {
    a.Worker? && s.work.Free? && s.queue != [] && s.queue[0] == task
  }

  /** What the last mute task said that the worker has run. */
  function Hushed(config: Config, turns: seq<Turn>): bool {
    if turns == [] then false
    else
      var n := |turns| - 1;
      var s := Run(config, turns[..n]);
      if Runs(s, turns[n], Mute(true)) then true
      else if Runs(s, turns[n], Mute(false)) then false
      else Hushed(config, turns[..n])
  }

  /** The thresholds of the last threshold task that the worker has run: closing is 10 dB below opening. */
  function Tuned(config: Config, turns: seq<Turn>): Config {
    if turns == [] then config
    else
      var n := |turns| - 1;
      var s := Run(config, turns[..n]);
      if turns[n].Worker? && s.work.Free? && s.queue != [] && s.queue[0].Tune? then
        Config(s.queue[0].threshold, s.queue[0].threshold - 10.0, config.hangoverMs, config.minOnMs, config.preRollMs)
      else Tuned(config, turns[..n])
  }

  lemma SettingStep(s: State, a: Turn)
    ensures var t := Step(s, a); (
              && t.gate.muted == (if Runs(s, a, Mute(true)) then true
                                  else if Runs(s, a, Mute(false)) then false
                                  else s.gate.muted)
              && t.gate.config
                 == if a.Worker? && s.work.Free? && s.queue != [] && s.queue[0].Tune?
                    then s.gate.config.(openThreshold := s.queue[0].threshold,
                                        closeThreshold := s.queue[0].threshold - 10.0)
                    else s.gate.config)
  {
    hide Next;
    if a.Worker? {
      if s.work.Busy? {
        DeliverySetting(s);
      }
    }
  }

  lemma DeliverySetting(s: State)
    requires s.work.Busy?
    ensures RunDelivery(s).gate.muted == s.gate.muted && RunDelivery(s).gate.config == s.gate.config
  {
    hide Chunk.DurMs, Prune, Chunks, RunGate;
    GateLog(s.(work := s.work.(delivered := true)), s.work.packet.chunk, Vox);
  }

  /** Over every run the gate is muted, and has the thresholds, as the last tasks said. */
  lemma {:induction false} GateIsSet(config: Config, turns: seq<Turn>)
    ensures var g := Run(config, turns).gate; g.muted == Hushed(config, turns) && g.config == Tuned(config, turns)
    ensures (
      var c := Tuned(config, turns);
      c.hangoverMs == config.hangoverMs && c.minOnMs == config.minOnMs && c.preRollMs == config.preRollMs)
  {
    hide Step, Runs;
    if turns != [] {
      var n := |turns| - 1;
      GateIsSet(config, turns[..n]);
      SettingStep(Run(config, turns[..n]), turns[n]);
    }
  }

  /** While muted, voice activation sends nothing. */
  lemma MutedSendsNothing(config: Config, turns: seq<Turn>, a: Turn)
    requires Hushed(config, turns)
    ensures Sent(Run(config, turns + [a]).log, Vox) == Sent(Run(config, turns).log, Vox)
  {
    hide Run, Step, Sent, Hushed, Tuned;
    GateIsSet(config, turns);
    var s := Run(config, turns);
    SentStep(s, a, Vox);
    NextRun(config, turns, a);
  }

  /** A mute task that finds the gate open stops the transmission and leaves the gate shut and empty; any other only
      turns the switch. */
  lemma MuteTask(config: Config, turns: seq<Turn>, a: Turn, value: bool)
    requires Runs(Run(config, turns), a, Mute(value))
    ensures var s, t := Run(config, turns), Run(config, turns + [a]); (
              if value && s.gate.isOpen
              then t.log == s.log + [StopTransmit(Vox)] && !t.gate.isOpen && t.gate.preroll == [] && t.gate.muted
              else t.log == s.log && t.gate == s.gate.(muted := value))
  {
    hide Run;
    WorkerViewIsRight(config, turns);
    NextRun(config, turns, a);
  }

  /** A threshold task touches nothing but the two thresholds. */
  lemma TuneTask(config: Config, turns: seq<Turn>, a: Turn, threshold: real)
    requires Runs(Run(config, turns), a, Tune(threshold))
    ensures var s, t := Run(config, turns), Run(config, turns + [a]);
            var c := s.gate.config; (
              && t.log == s.log
              && t.gate == s.gate.(config := Config(threshold, threshold - 10.0, c.hangoverMs, c.minOnMs, c.preRollMs)))
  {
    hide Run;
    NextRun(config, turns, a);
  }

  /** A start of voice activation that succeeds finds or leaves the gate at rest, with its switch and configuration. */
  lemma StartTask(config: Config, turns: seq<Turn>, a: Turn)
    requires Runs(Run(config, turns), a, Start(Vox)) && a.ok && !Run(config, turns).vox.running
    ensures var s, t := Run(config, turns), Run(config, turns + [a]); (
              && t.vox.running && t.vox.delivery.active && t.log == s.log + [Began(Vox)]
              && !t.gate.isOpen && t.gate.preroll == [] && t.gate.clockMs == 0.0
              && t.gate.muted == s.gate.muted && t.gate.config == s.gate.config)
  {
    hide Run;
    NextRun(config, turns, a);
  }

  lemma NextRun(config: Config, turns: seq<Turn>, a: Turn)
    ensures Run(config, turns + [a]) == Step(Run(config, turns), a)
  {
    assert (turns + [a])[..|turns|] == turns;
  }
}
