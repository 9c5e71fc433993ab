/** The capture budget over every interleaving: what is pending is what is on its way. */
module CaptureBudget {
  import opened VoxGate
  import opened CaptureDelivery
  import opened CaptureSystem

  function Share(p: Packet, generation: nat): real {
    if p.token == generation then p.duration else 0.0
  }

  function QueueDue(queue: seq<Task>, who: Who, generation: nat): real {
    if queue == [] then 0.0
    else
      var last := queue[|queue| - 1];
      QueueDue(queue[..|queue| - 1], who, generation)
      + (if last.Deliver? && last.who == who then Share(last.packet, generation) else 0.0)
  }

  function WorkDue(w: Work, who: Who, generation: nat): real {
    if w.Busy? && w.who == who then Share(w.packet, generation) else 0.0
  }

  function TapDue(side: Side, generation: nat): real {
    if side.inflight.Some? then Share(side.inflight.value, generation) else 0.0
  }

  /** The durations of a side's packets of the present generation, wherever they are. */
  function Due(s: State, who: Who): real {
    var g := s.Of(who).delivery.generation;
    QueueDue(s.queue, who, g) + WorkDue(s.work, who, g) + TapDue(s.Of(who), g)
  }

  /** A packet lasts as many seconds as its chunk's samples fill at its rate. */
  predicate Lasts(p: Packet) {
    p.chunk.rate > 0 && p.duration * p.chunk.rate as real == p.chunk.samples as real
  }

  predicate Known(side: Side, p: Packet) {
    p.duration > 0.0 && p.token <= side.delivery.generation && Lasts(p)
  }

  predicate AllKnown(s: State, who: Who) {
    var side := s.Of(who);
    && (forall i :: 0 <= i < |s.queue| && s.queue[i].Deliver? && s.queue[i].who == who ==>
          Known(side, s.queue[i].packet))
    && (s.work.Busy? && s.work.who == who ==> Known(side, s.work.packet))
    && (side.inflight.Some? ==> Known(side, side.inflight.value))
  }

  predicate Balanced(s: State, who: Who) {
    && AllKnown(s, who)
    && s.Of(who).delivery.pending == Due(s, who)
    && s.Of(who).delivery.pending <= LIMIT
  }

  lemma {:induction false} QueueFirst(queue: seq<Task>, who: Who, generation: nat)
    requires queue != []
    ensures QueueDue(queue, who, generation)
         == (if queue[0].Deliver? && queue[0].who == who then Share(queue[0].packet, generation) else 0.0)
            + QueueDue(queue[1..], who, generation)
    decreases |queue|
  {
    hide Share;
    var n := |queue| - 1;
    if n > 0 {
      QueueFirst(queue[..n], who, generation);
      assert queue[..n][1..] == queue[1..][..n - 1];
    }
  }

  lemma QueueSnoc(queue: seq<Task>, task: Task, who: Who, generation: nat)
    ensures QueueDue(queue + [task], who, generation)
         == QueueDue(queue, who, generation)
            + (if task.Deliver? && task.who == who then Share(task.packet, generation) else 0.0)
  {
    hide Share;
    assert (queue + [task])[..|queue|] == queue;
  }

  /** A new generation owes nothing, and nothing owed is negative. */
  lemma {:induction false} QueueBounds(s: State, queue: seq<Task>, who: Who, generation: nat)
    requires forall i :: 0 <= i < |queue| && queue[i].Deliver? && queue[i].who == who ==>
                       Known(s.Of(who), queue[i].packet)
    ensures QueueDue(queue, who, generation) >= 0.0
    ensures generation > s.Of(who).delivery.generation ==> QueueDue(queue, who, generation) == 0.0
  {
    if queue != [] {
      QueueBounds(s, queue[..|queue| - 1], who, generation);
    }
  }

  lemma Renewed(s: State, who: Who)
    requires AllKnown(s, who)
    ensures var g := s.Of(who).delivery.generation + 1;
            QueueDue(s.queue, who, g) == WorkDue(s.work, who, g) == TapDue(s.Of(who), g) == 0.0
  {
    QueueBounds(s, s.queue, who, s.Of(who).delivery.generation + 1);
  }

  /** Steps that do not touch the packets, the generation or the pending time of a side. */
  lemma Untouched(s: State, t: State, who: Who)
    requires Balanced(s, who)
    requires t.Of(who).delivery == s.Of(who).delivery && t.Of(who).inflight == s.Of(who).inflight
    requires t.queue == s.queue && t.work == s.work
    ensures Balanced(t, who)
  {
    hide QueueDue, Share;
  }

  lemma BalancedEnqueue(s: State, task: Task, who: Who)
    requires Balanced(s, who) && !task.Deliver?
    ensures Balanced(s.(queue := s.queue + [task]), who)
  {
    hide QueueDue, Share, Known;
    QueueSnoc(s.queue, task, who, s.Of(who).delivery.generation);
  }

  /** A begin or a stop: the pending time restarts at zero with a new generation. */
  lemma BalancedRenew(s: State, t: State, who: Who)
    requires Balanced(s, who)
    requires t.Of(who).delivery.generation == s.Of(who).delivery.generation + 1 && t.Of(who).delivery.pending == 0.0
    requires t.Of(who).inflight == s.Of(who).inflight && t.queue == s.queue && t.work == s.work
    ensures Balanced(t, who)
  {
    hide QueueDue;
    Renewed(s, who);
  }

  lemma BalancedPressStop(s: State, presser: Who, who: Who)
    requires Balanced(s, who)
    ensures Balanced(DoPressStop(s, presser), who)
  {
    hide Balanced;
    var t := DoPressStop(s, presser);
    if t != s && presser == who {
      BalancedRenew(s, t, who);
    } else {
      Untouched(s, t, who);
    }
  }

  lemma BalancedQueueStop(s: State, who: Who)
    requires Balanced(s, who)
    ensures Balanced(DoQueueStop(s), who)
  {
    hide Balanced;
    if s.stopping.Some? {
      var task := Stop(s.stopping.value);
      BalancedEnqueue(s, task, who);
      Untouched(s.(queue := s.queue + [task]), DoQueueStop(s), who);
    }
  }

  lemma BalancedTap(s: State, tapper: Who, samples: nat, rate: nat, level: real, who: Who)
    requires Balanced(s, who)
    ensures Balanced(DoTap(s, tapper, samples, rate, level), who)
  {
    hide QueueDue;
    var t := DoTap(s, tapper, samples, rate, level);
    var side := s.Of(tapper);
    if tapper != who {
      Untouched(s, t, who);
    } else if side.inflight.None? && samples > 0 && rate > 0 {
      var duration := samples as real / rate as real;
      Positive(samples, rate);
      var r := Submitted(side.delivery, duration);
      if r.1.Some? {
        var p := t.Of(who).inflight.value;
        assert p.duration == duration && p.token == side.delivery.generation;
        assert p.chunk.samples == samples && p.chunk.rate == rate;
        assert t.Of(who).delivery == side.delivery.(pending := side.delivery.pending + duration);
        assert Due(t, who) == Due(s, who) + duration;
      }
    }
  }

  lemma Positive(samples: nat, rate: nat)
    requires samples > 0 && rate > 0
    ensures samples as real / rate as real > 0.0
    ensures samples as real / rate as real * rate as real == samples as real
  {
  }

  lemma BalancedTapEnqueue(s: State, tapper: Who, who: Who)
    requires Balanced(s, who)
    ensures Balanced(DoTapEnqueue(s, tapper), who)
  {
    hide QueueDue, Share;
    var side := s.Of(tapper);
    if side.inflight.Some? {
      QueueSnoc(s.queue, Deliver(tapper, side.inflight.value), who, s.Of(who).delivery.generation);
    }
  }

  lemma BalancedDequeue(s: State, ok: bool, recent: bool, who: Who)
    requires Balanced(s, who) && s.work.Free? && s.queue != []
    ensures Balanced(DoWorker(s, ok, recent), who)
  {
    hide QueueDue, Share, Known, Balanced, RunStart, RunStop, RunMute, RunTune;
    QueueFirst(s.queue, who, s.Of(who).delivery.generation);
    var t := s.(queue := s.queue[1..]);
    var task := s.queue[0];
    if task.Deliver? {
      BalancedCheck(s, ok, recent, who);
    } else {
      BalancedDropped(s, who);
      match task
      case Start(starter) => BalancedStart(t, starter, ok, who);
      case Stop(stopper) => BalancedStop(t, stopper, who);
      case Mute(value) => BalancedMute(t, value, who);
      case Tune(threshold) => BalancedTune(t, threshold, who);
    }
  }

  lemma BalancedDropped(s: State, who: Who)
    requires Balanced(s, who) && s.queue != [] && !s.queue[0].Deliver?
    ensures Balanced(s.(queue := s.queue[1..]), who)
  {
    hide QueueDue, Share, Known;
    QueueFirst(s.queue, who, s.Of(who).delivery.generation);
    var t := s.(queue := s.queue[1..]);
    forall i | 0 <= i < |t.queue| && t.queue[i].Deliver? && t.queue[i].who == who
      ensures Known(t.Of(who), t.queue[i].packet)
    {
      assert t.queue[i] == s.queue[i + 1];
    }
  }

  lemma BalancedCheck(s: State, ok: bool, recent: bool, who: Who)
    requires Balanced(s, who) && s.work.Free? && s.queue != [] && s.queue[0].Deliver?
    ensures Balanced(DoWorker(s, ok, recent), who)
  {
    hide QueueDue, Share, Known;
    QueueFirst(s.queue, who, s.Of(who).delivery.generation);
    var t := DoWorker(s, ok, recent);
    forall i | 0 <= i < |t.queue| && t.queue[i].Deliver? && t.queue[i].who == who
      ensures Known(t.Of(who), t.queue[i].packet)
    {
      assert t.queue[i] == s.queue[i + 1];
    }
  }

  lemma BalancedStart(s: State, starter: Who, ok: bool, who: Who)
    requires Balanced(s, who)
    ensures Balanced(RunStart(s, starter, ok), who)
  {
    hide Balanced;
    if s.Of(starter).running || !ok || starter != who {
      Untouched(s, RunStart(s, starter, ok), who);
    } else {
      BalancedRenew(s, RunStart(s, starter, ok), who);
    }
  }

  lemma BalancedStop(s: State, stopper: Who, who: Who)
    requires Balanced(s, who)
    ensures Balanced(RunStop(s, stopper), who)
  {
    hide Balanced;
    if stopper == who {
      BalancedRenew(s, RunStop(s, stopper), who);
    } else {
      Untouched(s, RunStop(s, stopper), who);
    }
  }

  lemma BalancedMute(s: State, value: bool, who: Who)
    requires Balanced(s, who)
    ensures Balanced(RunMute(s, value), who)
  {
    hide Balanced;
    Untouched(s, RunMute(s, value), who);
  }

  lemma BalancedTune(s: State, threshold: real, who: Who)
    requires Balanced(s, who)
    ensures Balanced(RunTune(s, threshold), who)
  {
    hide Balanced;
    Untouched(s, RunTune(s, threshold), who);
  }

  lemma BalancedDelivery(s: State, who: Who)
    requires Balanced(s, who) && s.work.Busy? && !s.work.delivered
    ensures Balanced(RunDelivery(s), who)
  {
    hide QueueDue, Share, Known, Next;
    var t := RunDelivery(s);
    assert t.queue == s.queue && t.Of(who) == s.Of(who) && t.work == s.work.(delivered := true);
  }

  lemma BalancedGiveBack(s: State, who: Who)
    requires Balanced(s, who) && s.work.Busy? && s.work.delivered
    ensures Balanced(RunDelivery(s), who)
  {
    hide QueueDue;
    QueueBounds(s, s.queue, who, s.Of(who).delivery.generation);
  }

  lemma BalancedStep(s: State, a: Turn, who: Who)
    requires Balanced(s, who)
    ensures Balanced(Step(s, a), who)
  {
    hide Balanced, RunDelivery, RunTask;
    match a
    case PressStart(presser, microphone) =>
      var t := DoPressStart(s, presser, microphone);
      BalancedEnqueue(s, Start(presser), who);
      if t.queue == s.queue {
        Untouched(s, t, who);
      } else {
        Untouched(s.(queue := s.queue + [Start(presser)]), t, who);
      }
    case PressStop(presser) => BalancedPressStop(s, presser, who);
    case QueueStop => BalancedQueueStop(s, who);
    case SetMuted(value) => BalancedEnqueue(s, Mute(value), who);
    case SetThreshold(threshold) => BalancedEnqueue(s, Tune(threshold), who);
    case Hop => Untouched(s, DoHop(s), who);
    case Tap(tapper, samples, rate, level) => BalancedTap(s, tapper, samples, rate, level, who);
    case TapEnqueue(tapper) => BalancedTapEnqueue(s, tapper, who);
    case Worker(ok, recent) =>
      if s.work.Busy? {
        if s.work.delivered { BalancedGiveBack(s, who); } else { BalancedDelivery(s, who); }
      } else if s.queue != [] {
        BalancedDequeue(s, ok, recent, who);
      }
  }

  /** In every reachable state the pending time of either capture is the sum of its packets of the present generation,
      in the tap, in the queue or in the worker, and it stays within the limit. */
  lemma {:induction false} PendingIsDue(config: Config, turns: seq<Turn>, who: Who)
    ensures Balanced(Run(config, turns), who)
  {
    hide Step, Balanced, Initial;
    if turns == [] {
      InitialBalanced(config, who);
    } else {
      PendingIsDue(config, turns[..|turns| - 1], who);
      BalancedStep(Run(config, turns[..|turns| - 1]), turns[|turns| - 1], who);
    }
  }

  lemma InitialBalanced(config: Config, who: Who)
    ensures Balanced(Initial(config), who)
  {
  }

  /** So giving a chunk's time back never reaches below zero, and the time of an older session changes nothing. */
  lemma GivenBackExactly(config: Config, turns: seq<Turn>)
    requires Run(config, turns).work.Busy?
    ensures var s := Run(config, turns);
            var d, p := s.Of(s.work.who).delivery, s.work.packet; (
              Finished(d, p.duration, p.token).pending
              == if p.token == d.generation then d.pending - p.duration else d.pending)
  {
    hide Run, QueueDue;
    var s := Run(config, turns);
    PendingIsDue(config, turns, s.work.who);
    QueueBounds(s, s.queue, s.work.who, s.Of(s.work.who).delivery.generation);
  }
}
