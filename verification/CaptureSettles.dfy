/** What the main thread has asked for is what the worker has done once its queue is empty; and which chunks are
    captured in between. */
module CaptureSettles {
  import opened VoxGate
  import opened CaptureDelivery
  import opened CaptureSystem
  import opened CaptureDelivered

  // ----- starts and stops

  /** Whether the capture runs after these tasks, if no start fails. */
  function WillRun(queue: seq<Task>, who: Who, running: bool): bool {
    if queue == [] then running
    else
      var n := |queue| - 1;
      if queue[n] == Start(who) then true
      else if queue[n] == Stop(who) then false
      else WillRun(queue[..n], who, running)
  }

  /** A flag that is up stands for a capture that runs or will, or for an error that is about to be reported. */
  predicate Promised(s: State, who: Who) {
    s.Of(who).flag ==> WillRun(s.queue, who, s.Of(who).running) || who in s.hops
  }

  lemma WillRunSnoc(queue: seq<Task>, task: Task, who: Who, running: bool)
    ensures WillRun(queue + [task], who, running)
            == if task == Start(who) then true else if task == Stop(who) then false else WillRun(queue, who, running)
  {
    assert (queue + [task])[..|queue|] == queue;
  }

  lemma {:induction false} WillRunFirst(queue: seq<Task>, who: Who, running: bool)
    requires queue != []
    ensures WillRun(queue, who, running)
            == WillRun(queue[1..], who,
                       if queue[0] == Start(who) then true else if queue[0] == Stop(who) then false else running)
    decreases |queue|
  {
    var n := |queue| - 1;
    if n > 0 {
      WillRunFirst(queue[..n], who, running);
      assert queue[..n][1..] == queue[1..][..n - 1];
    }
  }

  lemma PromisedOutside(s: State, a: Turn, who: Who)
    requires Promised(s, who) && !a.Worker?
    ensures Promised(Step(s, a), who)
  {
    hide WillRun, DoTap, DoTapEnqueue;
    var running := s.Of(who).running;
    match a
    case PressStart(w, microphone) => WillRunSnoc(s.queue, Start(w), who, running);
    case QueueStop => if s.stopping.Some? { WillRunSnoc(s.queue, Stop(s.stopping.value), who, running); }
    case SetMuted(value) => WillRunSnoc(s.queue, Mute(value), who, running);
    case SetThreshold(threshold) => WillRunSnoc(s.queue, Tune(threshold), who, running);
    case Tap(_, _, _, _) | TapEnqueue(_) => TapKeepsFlags(s, a, who);
    case PressStop(_) | Hop =>
  }

  lemma TapKeepsFlags(s: State, a: Turn, who: Who)
    requires a.Tap? || a.TapEnqueue?
    ensures var t := Step(s, a); (
              && t.Of(who).flag == s.Of(who).flag && t.Of(who).running == s.Of(who).running && t.hops == s.hops
              && WillRun(t.queue, who, s.Of(who).running) == WillRun(s.queue, who, s.Of(who).running))
  {
    hide WillRun;
    if a.TapEnqueue? && s.Of(a.who).inflight.Some? {
      WillRunSnoc(s.queue, Deliver(a.who, s.Of(a.who).inflight.value), who, s.Of(who).running);
    }
  }

  lemma PromisedWorker(s: State, a: Turn, who: Who)
    requires Promised(s, who) && a.Worker?
    ensures Promised(Step(s, a), who)
  {
    hide WillRun, RunDelivery, RunTask;
    if s.work.Busy? {
      DeliveryKeepsFlags(s, who);
    } else if s.queue != [] {
      WillRunFirst(s.queue, who, s.Of(who).running);
      TaskRuns(s.(queue := s.queue[1..]), s.queue[0], a.ok, a.recent, who);
    }
  }

  lemma DeliveryKeepsFlags(s: State, who: Who)
    requires s.work.Busy?
    ensures var t := RunDelivery(s); (
              && t.Of(who).flag == s.Of(who).flag && t.Of(who).running == s.Of(who).running
              && t.hops == s.hops && t.queue == s.queue)
  {
    hide Next;
  }

  /** A start runs the capture or leaves an error to report, and a stop ends it. */
  lemma TaskRuns(s: State, task: Task, ok: bool, recent: bool, who: Who)
    ensures var t := RunTask(s, task, ok, recent); (
              && t.Of(who).flag == s.Of(who).flag && t.queue == s.queue
              && (who in s.hops ==> who in t.hops)
              && (task == Start(who) ==> t.Of(who).running || who in t.hops)
              && (task == Stop(who) ==> !t.Of(who).running)
              && (task != Start(who) && task != Stop(who) ==> t.Of(who).running == s.Of(who).running))
  {
  }

  lemma {:induction false} AlwaysPromised(config: Config, turns: seq<Turn>, who: Who)
    ensures Promised(Run(config, turns), who)
  {
    hide Step, Promised, Initial;
    if turns == [] {
      NothingPromised(config, who);
    } else {
      var n := |turns| - 1;
      AlwaysPromised(config, turns[..n], who);
      if turns[n].Worker? {
        PromisedWorker(Run(config, turns[..n]), turns[n], who);
      } else {
        PromisedOutside(Run(config, turns[..n]), turns[n], who);
      }
    }
  }

  lemma NothingPromised(config: Config, who: Who)
    ensures Promised(Initial(config), who)
  {
  }

  // ----- mute and threshold

  /** The last mute that was asked for. */
  function AskedMute(turns: seq<Turn>): bool {
    if turns == [] then false
    else if turns[|turns| - 1].SetMuted? then turns[|turns| - 1].value
    else AskedMute(turns[..|turns| - 1])
  }

  /** The last threshold that was asked for. */
  function AskedThreshold(config: Config, turns: seq<Turn>): real {
    if turns == [] then config.openThreshold
    else if turns[|turns| - 1].SetThreshold? then turns[|turns| - 1].threshold
    else AskedThreshold(config, turns[..|turns| - 1])
  }

  /** What these tasks will make of the gate's mute switch and threshold. */
  function WillMute(queue: seq<Task>, muted: bool): bool {
    if queue == [] then muted
    else if queue[|queue| - 1].Mute? then queue[|queue| - 1].value
    else WillMute(queue[..|queue| - 1], muted)
  }

  function WillTune(queue: seq<Task>, threshold: real): real {
    if queue == [] then threshold
    else if queue[|queue| - 1].Tune? then queue[|queue| - 1].threshold
    else WillTune(queue[..|queue| - 1], threshold)
  }

  lemma WillSetSnoc(queue: seq<Task>, task: Task, muted: bool, threshold: real)
    ensures WillMute(queue + [task], muted) == if task.Mute? then task.value else WillMute(queue, muted)
    ensures WillTune(queue + [task], threshold) == if task.Tune? then task.threshold else WillTune(queue, threshold)
  {
    assert (queue + [task])[..|queue|] == queue;
  }

  lemma {:induction false} WillSetFirst(queue: seq<Task>, muted: bool, threshold: real)
    requires queue != []
    ensures WillMute(queue, muted) == WillMute(queue[1..], if queue[0].Mute? then queue[0].value else muted)
    ensures WillTune(queue, threshold) == WillTune(queue[1..], if queue[0].Tune? then queue[0].threshold else threshold)
    decreases |queue|
  {
    var n := |queue| - 1;
    if n > 0 {
      WillSetFirst(queue[..n], muted, threshold);
      assert queue[..n][1..] == queue[1..][..n - 1];
    }
  }

  /** What the gate has been set to, or will be when the queue is empty. */
  function Settling(s: State): (bool, real) {
    (WillMute(s.queue, s.gate.muted), WillTune(s.queue, s.gate.config.openThreshold))
  }

  lemma SettlingStep(s: State, a: Turn)
    ensures Settling(Step(s, a)) == (if a.SetMuted? then a.value else Settling(s).0,
                                     if a.SetThreshold? then a.threshold else Settling(s).1)
  {
    hide WillMute, WillTune, RunTask, RunDelivery;
    var muted, threshold := s.gate.muted, s.gate.config.openThreshold;
    match a
    case PressStart(w, microphone) => WillSetSnoc(s.queue, Start(w), muted, threshold);
    case QueueStop => if s.stopping.Some? { WillSetSnoc(s.queue, Stop(s.stopping.value), muted, threshold); }
    case SetMuted(value) => WillSetSnoc(s.queue, Mute(value), muted, threshold);
    case SetThreshold(t) => WillSetSnoc(s.queue, Tune(t), muted, threshold);
    case TapEnqueue(w) =>
      if s.Of(w).inflight.Some? {
        WillSetSnoc(s.queue, Deliver(w, s.Of(w).inflight.value), muted, threshold);
      }
    case Worker(ok, recent) => SettlingWorker(s, a);
    case PressStop(_) | Hop | Tap(_, _, _, _) =>
  }

  lemma SettlingWorker(s: State, a: Turn)
    requires a.Worker?
    ensures Settling(Step(s, a)) == Settling(s)
  {
    hide WillMute, WillTune, RunTask, RunDelivery;
    SettingStep(s, a);
    if s.work.Busy? {
      DeliveryKeeps(s, Ptt);
    } else if s.queue != [] {
      WillSetFirst(s.queue, s.gate.muted, s.gate.config.openThreshold);
      TaskKeeps(s.(queue := s.queue[1..]), s.queue[0], a.ok, a.recent, Ptt);
    }
  }

  lemma {:induction false} AlwaysSettling(config: Config, turns: seq<Turn>)
    ensures Settling(Run(config, turns)) == (AskedMute(turns), AskedThreshold(config, turns))
  {
    hide Step, Settling, Initial;
    if turns == [] {
      NothingSettling(config);
    } else {
      AlwaysSettling(config, turns[..|turns| - 1]);
      SettlingStep(Run(config, turns[..|turns| - 1]), turns[|turns| - 1]);
    }
  }

  lemma NothingSettling(config: Config)
    ensures Settling(Initial(config)) == (false, config.openThreshold)
  {
  }

  /** Over every run, whenever the worker's queue is empty: the gate is muted, and opens at the level, as was last
      asked; and a transmitter whose flag is up has a running capture, or an error on its way to the main thread. */
  lemma Settled(config: Config, turns: seq<Turn>, who: Who)
    requires Run(config, turns).queue == []
    ensures var s := Run(config, turns); (
              && s.gate.muted == AskedMute(turns) && s.gate.config.openThreshold == AskedThreshold(config, turns)
              && (s.Of(who).flag ==> s.Of(who).running || who in s.hops))
  {
    hide Run, AskedMute, AskedThreshold;
    AlwaysSettling(config, turns);
    AlwaysPromised(config, turns, who);
  }

  // ----- what is captured

  /** The tap offers a chunk that is accepted: the capture is on, nothing else is in the tap's hands, and no more than a
      fifth of a second is on its way with it. */
  predicate Accepts(s: State, a: Turn, who: Who) {
    && a.Tap? && a.who == who && a.samples > 0 && a.rate > 0
    && s.Of(who).inflight.None? && s.Of(who).delivery.active
    && (s.Of(who).delivery.pending * a.rate as real + a.samples as real) * 5.0 <= a.rate as real
  }

  /** The chunks accepted in a run, each with its session and its place. */
  function Accepted(config: Config, turns: seq<Turn>, who: Who): seq<Chunk> {
    if turns == [] then []
    else
      var n := |turns| - 1;
      var s, a, earlier := Run(config, turns[..n]), turns[n], Accepted(config, turns[..n], who);
      if Accepts(s, a, who) then earlier + [Chunk(s.Of(who).session, |earlier|, a.samples, a.rate, a.level)]
      else earlier
  }

  lemma AcceptStep(s: State, a: Turn, who: Who)
    ensures var side := s.Of(who);
            Step(s, a).Of(who).captured
            == if Accepts(s, a, who)
               then side.captured + [Chunk(side.session, |side.captured|, a.samples, a.rate, a.level)]
               else side.captured
  {
    hide RunTask, RunDelivery, Submitted;
    match a
    case Tap(w, samples, rate, level) =>
      if rate > 0 {
        SubmittedIff(s.Of(w).delivery, samples, rate);
      }
    case Worker(ok, recent) =>
      if s.work.Busy? {
        DeliveryKeeps(s, who);
      } else if s.queue != [] {
        TaskKeeps(s.(queue := s.queue[1..]), s.queue[0], ok, recent, who);
      }
    case _ =>
  }

  /** Over every run, exactly the accepted chunks are captured, as they were offered and in order. */
  lemma {:induction false} CapturedIsAccepted(config: Config, turns: seq<Turn>, who: Who)
    ensures Run(config, turns).Of(who).captured == Accepted(config, turns, who)
  {
    hide Step, Accepts;
    if turns != [] {
      CapturedIsAccepted(config, turns[..|turns| - 1], who);
      AcceptStep(Run(config, turns[..|turns| - 1]), turns[|turns| - 1], who);
    }
  }
}
