/** The gate's times counted in samples: for a capture of one sample rate, openings, flushes and closings are a matter
    of whole samples, judged without any duration. */
module VoxSamples {
  import opened VoxGate
  import opened VoxTiming
  import opened VoxRuns

  /** A chunk lasts as many seconds as its samples fill at its rate, in milliseconds. */
  lemma DurationLaw(c: Chunk)
    ensures c.rate > 0 ==> c.DurMs() * c.rate as real == c.samples as real * 1000.0
    ensures c.rate == 0 ==> c.DurMs() == 0.0
  {
  }

  predicate OneRate(chunks: seq<Chunk>, rate: nat) {
    forall i :: 0 <= i < |chunks| ==> chunks[i].rate == rate
  }

  function Samples(chunks: seq<Chunk>): nat {
    if chunks == [] then 0 else Samples(chunks[..|chunks| - 1]) + chunks[|chunks| - 1].samples
  }

  /** The samples after the last chunk at or above the threshold. */
  function QuietSamples(chunks: seq<Chunk>, threshold: real): nat {
    if chunks == [] || chunks[|chunks| - 1].level >= threshold then 0
    else QuietSamples(chunks[..|chunks| - 1], threshold) + chunks[|chunks| - 1].samples
  }

  /** n samples at this rate take longer than ms milliseconds. */
  predicate Longer(n: nat, ms: real, rate: nat) {
    n as real * 1000.0 > ms * rate as real
  }

  lemma Distribute(a: real, b: real, r: real)
    ensures (a + b) * r == a * r + b * r
  {
  }

  lemma {:induction false} ElapsedInSamples(chunks: seq<Chunk>, rate: nat)
    requires OneRate(chunks, rate) && rate > 0
    ensures Elapsed(chunks) * rate as real == Samples(chunks) as real * 1000.0
  {
    hide Chunk.DurMs;
    if chunks != [] {
      var n := |chunks| - 1;
      ElapsedInSamples(chunks[..n], rate);
      DurationLaw(chunks[n]);
      Distribute(Elapsed(chunks[..n]), chunks[n].DurMs(), rate as real);
    }
  }

  lemma {:induction false} QuietInSamples(chunks: seq<Chunk>, threshold: real, rate: nat)
    requires OneRate(chunks, rate) && rate > 0
    ensures SinceLoud(chunks, threshold) * rate as real == QuietSamples(chunks, threshold) as real * 1000.0
  {
    hide Chunk.DurMs;
    if chunks != [] && chunks[|chunks| - 1].level < threshold {
      var n := |chunks| - 1;
      QuietInSamples(chunks[..n], threshold, rate);
      DurationLaw(chunks[n]);
      Distribute(SinceLoud(chunks[..n], threshold), chunks[n].DurMs(), rate as real);
    }
  }

  lemma Scaled(x: real, ms: real, n: nat, rate: nat)
    requires rate > 0 && x * rate as real == n as real * 1000.0
    ensures x > ms <==> Longer(n, ms, rate)
  {
    var r := rate as real;
    if x > ms {
      assert (x - ms) * r > 0.0;
    } else {
      assert (ms - x) * r >= 0.0;
    }
  }

  /** The gate may close when the samples since the opening, and since the last loud chunk, are enough. */
  predicate EnoughToClose(chunks: seq<Chunk>, config: Config, rate: nat) {
    && Longer(QuietSamples(chunks, config.closeThreshold), config.hangoverMs, rate)
    && Longer(Samples(chunks), config.minOnMs, rate)
  }

  lemma ClosingInSamples(chunks: seq<Chunk>, config: Config, rate: nat)
    requires OneRate(chunks, rate) && rate > 0
    ensures MayClose(chunks, config) <==> EnoughToClose(chunks, config, rate)
  {
    hide Elapsed, SinceLoud, Samples, QuietSamples, Longer;
    ElapsedInSamples(chunks, rate);
    QuietInSamples(chunks, config.closeThreshold, rate);
    Scaled(SinceLoud(chunks, config.closeThreshold), config.hangoverMs, QuietSamples(chunks, config.closeThreshold),
           rate);
    Scaled(Elapsed(chunks), config.minOnMs, Samples(chunks), rate);
  }

  /** The longest suffix that ended, counted in samples, within the limit. */
  function RecentSamples(chunks: seq<Chunk>, limit: real, rate: nat): seq<Chunk> {
    if chunks == [] || !Longer(Samples(chunks[1..]), limit, rate) then chunks
    else RecentSamples(chunks[1..], limit, rate)
  }

  lemma {:induction false} RecentInSamples(chunks: seq<Chunk>, limit: real, rate: nat)
    requires OneRate(chunks, rate) && rate > 0
    ensures Recent(chunks, limit) == RecentSamples(chunks, limit, rate)
  {
    hide Elapsed, Samples, Longer;
    if chunks != [] {
      ElapsedInSamples(chunks[1..], rate);
      Scaled(Elapsed(chunks[1..]), limit, Samples(chunks[1..]), rate);
      RecentInSamples(chunks[1..], limit, rate);
    }
  }

  // ----- the reference of VoxRuns, without durations

  function CountedLeg(chunks: seq<Chunk>, config: Config, rate: nat): (leg: Leg)
    ensures leg.from <= |chunks|
  {
    if chunks == [] then Quiet(0)
    else
      var n := |chunks| - 1;
      match CountedLeg(chunks[..n], config, rate)
      case Quiet(from) => if chunks[n].level >= config.openThreshold then Loud(n + 1) else Quiet(from)
      case Loud(from) => if EnoughToClose(chunks[from..], config, rate) then Quiet(n + 1) else Loud(from)
  }

  function CountedAnswer(chunks: seq<Chunk>, config: Config, rate: nat): Action
    requires chunks != []
  {
    var n := |chunks| - 1;
    match CountedLeg(chunks[..n], config, rate)
    case Quiet(from) =>
      if chunks[n].level < config.openThreshold then Idle
      else Open(RecentSamples(chunks[from..], config.preRollMs, rate))
    case Loud(from) => if EnoughToClose(chunks[from..], config, rate) then Close else Transmit(chunks[n])
  }

  function CountedAnswers(chunks: seq<Chunk>, config: Config, rate: nat): seq<Action> {
    if chunks == [] then []
    else CountedAnswers(chunks[..|chunks| - 1], config, rate) + [CountedAnswer(chunks, config, rate)]
  }

  lemma {:induction false} LegIsCounted(chunks: seq<Chunk>, config: Config, rate: nat)
    requires OneRate(chunks, rate) && rate > 0
    ensures LegAfter(chunks, config) == CountedLeg(chunks, config, rate)
  {
    hide MayClose, EnoughToClose;
    if chunks != [] {
      var n := |chunks| - 1;
      LegIsCounted(chunks[..n], config, rate);
      ClosingInSamples(chunks[LegAfter(chunks[..n], config).from..], config, rate);
    }
  }

  lemma {:induction false} AnswersAreCounted(chunks: seq<Chunk>, config: Config, rate: nat)
    requires OneRate(chunks, rate) && rate > 0
    ensures Answers(chunks, config) == CountedAnswers(chunks, config, rate)
  {
    hide MayClose, EnoughToClose, LegAfter, CountedLeg, Recent, RecentSamples;
    if chunks != [] {
      var n := |chunks| - 1;
      var from := LegAfter(chunks[..n], config).from;
      AnswersAreCounted(chunks[..n], config, rate);
      LegIsCounted(chunks[..n], config, rate);
      ClosingInSamples(chunks[from..], config, rate);
      RecentInSamples(chunks[from..], config.preRollMs, rate);
    }
  }

  /** Over any chunks of one sample rate, from a cleared gate that is not muted: every opening, its flush and every
      closing come as counting samples says. */
  lemma GateRunInSamples(g: Gate, chunks: seq<Chunk>, rate: nat)
    requires !g.isOpen && !g.muted && g.preroll == [] && OneRate(chunks, rate) && rate > 0
    ensures Feed(g, chunks).actions == CountedAnswers(chunks, g.config, rate)
  {
    GateRun(g, chunks);
    AnswersAreCounted(chunks, g.config, rate);
  }

  // ----- mute

  /** Muted, the gate transmits nothing: the first chunk closes it if it was open or owes a close, and all others find
      it idle; and nothing captured meanwhile is held for a later opening. */
  lemma {:induction false} MutedRun(g: Gate, chunks: seq<Chunk>)
    requires g.muted && chunks != []
    ensures var t := Feed(g, chunks); (
              && |t.actions| == |chunks|
              && t.actions[0] == (if g.isOpen || g.pendingCloseFromMute then Close else Idle)
              && (forall i :: 0 < i < |chunks| ==> t.actions[i] == Idle)
              && !t.gate.isOpen && !t.gate.pendingCloseFromMute && t.gate.muted && t.gate.preroll == [])
  {
    hide Chunk.DurMs, Prune, Chunks;
    var n := |chunks| - 1;
    if n > 0 {
      MutedRun(g, chunks[..n]);
      assert chunks[..n][0] == chunks[0];
    } else {
      assert Feed(g, chunks[..0]) == Trace(g, []);
    }
  }
}
