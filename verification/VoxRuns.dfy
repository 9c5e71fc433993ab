/** Whole runs of the gate: with a fixed configuration and no mute, every opening, its flush and every closing. */
module VoxRuns {
  import opened VoxGate
  import opened VoxTiming

  /** Whether a gate is open after some chunks, and the first chunk after the one that last opened or closed it. */
  datatype Leg = Quiet(from: nat) | Loud(from: nat)

  /** The chunks that ended at most `limit` ago: the longest such suffix, since ages fall along the sequence. */
  function Recent(chunks: seq<Chunk>, limit: real): seq<Chunk> {
    if chunks == [] || Age(chunks, 0) <= limit then chunks else Recent(chunks[1..], limit)
  }

  function LegAfter(chunks: seq<Chunk>, config: Config): (leg: Leg)
    ensures leg.from <= |chunks|
  {
    if chunks == [] then Quiet(0)
    else
      var n := |chunks| - 1;
      match LegAfter(chunks[..n], config)
      case Quiet(from) => if chunks[n].level >= config.openThreshold then Loud(n + 1) else Quiet(from)
      case Loud(from) => if MayClose(chunks[from..], config) then Quiet(n + 1) else Loud(from)
  }

  /** What the gate has to answer to the last chunk. */
  function Answer(chunks: seq<Chunk>, config: Config): Action
    requires chunks != []
  {
    var n := |chunks| - 1;
    match LegAfter(chunks[..n], config)
    case Quiet(from) =>
      if chunks[n].level >= config.openThreshold then Open(Recent(chunks[from..], config.preRollMs)) else Idle
    case Loud(from) => if MayClose(chunks[from..], config) then Close else Transmit(chunks[n])
  }

  function Answers(chunks: seq<Chunk>, config: Config): seq<Action> {
    if chunks == [] then [] else Answers(chunks[..|chunks| - 1], config) + [Answer(chunks, config)]
  }

  /** The gate's clocks and pre-roll agree with the chunks of the present leg. */
  ghost predicate Follows(g: Gate, chunks: seq<Chunk>, config: Config) {
    && g.config == config && !g.muted
    && match LegAfter(chunks, config)
       case Quiet(from) =>
         && !g.isOpen
         && exists k: nat ::
              Rolled(g.clockMs, g.preroll, chunks[from..], k) && Splits(chunks[from..], k, config.preRollMs)
       case Loud(from) =>
         && g.isOpen && g.preroll == []
         && g.clockMs - g.openedAtMs == Elapsed(chunks[from..])
         && g.clockMs - g.lastAboveCloseMs == SinceLoud(chunks[from..], config.closeThreshold)
  }

  lemma {:induction false} RecentIs(chunks: seq<Chunk>, k: nat, limit: real)
    requires Splits(chunks, k, limit)
    ensures Recent(chunks, limit) == chunks[k..]
    decreases k
  {
    hide Chunk.DurMs, Elapsed;
    if k > 0 {
      assert Age(chunks, 0) > limit;
      forall i | 0 <= i < |chunks| - 1
        ensures Age(chunks[1..], i) == Age(chunks, i + 1)
      {
        assert chunks[1..][i + 1..] == chunks[i + 2..];
      }
      RecentIs(chunks[1..], k - 1, limit);
      assert chunks[1..][k - 1..] == chunks[k..];
    }
  }

  /** The flush holds exactly the chunks of the leg that ended within the limit. */
  lemma {:induction false} RecentSplits(chunks: seq<Chunk>, limit: real)
    ensures var k := |chunks| - |Recent(chunks, limit)|; (
              k >= 0 && Recent(chunks, limit) == chunks[k..] && Splits(chunks, k, limit))
  {
    hide Chunk.DurMs, Elapsed;
    if chunks != [] {
      if Age(chunks, 0) <= limit {
        forall i | 0 <= i < |chunks|
          ensures Age(chunks, i) <= limit
        {
          AgeFalls(chunks, 0, i);
        }
      } else {
        RecentSplits(chunks[1..], limit);
        forall i | 0 <= i < |chunks| - 1
          ensures Age(chunks[1..], i) == Age(chunks, i + 1)
        {
          assert chunks[1..][i + 1..] == chunks[i + 2..];
        }
        var k := |chunks| - |Recent(chunks, limit)|;
        forall i | 0 <= i < |chunks|
          ensures if i < k then Age(chunks, i) > limit else Age(chunks, i) <= limit
        {
          if i > 0 {
            assert Age(chunks[1..], i - 1) == Age(chunks, i);
          }
        }
      }
    }
  }

  lemma SliceSnoc(chunks: seq<Chunk>, from: nat)
    requires chunks != [] && from <= |chunks| - 1
    ensures chunks[from..] == chunks[..|chunks| - 1][from..] + [chunks[|chunks| - 1]]
  {
  }

  lemma QuietStep(g: Gate, chunks: seq<Chunk>, config: Config)
    requires chunks != [] && Follows(g, chunks[..|chunks| - 1], config)
    requires LegAfter(chunks[..|chunks| - 1], config).Quiet?
    ensures Follows(Next(g, chunks[|chunks| - 1]).gate, chunks, config)
    ensures Next(g, chunks[|chunks| - 1]).action == Answer(chunks, config)
  {
    hide Chunk.DurMs, Prune, Age, Chunks, Splits, Rolled, Next, Elapsed, SinceLoud, Recent;
    var n := |chunks| - 1;
    var c, from := chunks[n], LegAfter(chunks[..n], config).from;
    var heard, leg := chunks[..n][from..], chunks[from..];
    SliceSnoc(chunks, from);
    var k0: nat :| Rolled(g.clockMs, g.preroll, heard, k0) && Splits(heard, k0, config.preRollMs);
    NextClosed(g, c);
    RolledSnoc(g, heard, k0, c);
    var now := g.clockMs + c.DurMs();
    var held := g.preroll + [Held(c, now)];
    var k := PruneRolled(now, config.preRollMs, held, leg, k0);
    ChunksOfRolled(now, Prune(held, now, config.preRollMs), leg, k);
    RecentIs(leg, k, config.preRollMs);
    if c.level >= config.openThreshold {
      OpenedNow(g, c, chunks);
    }
  }

  lemma OpenedNow(g: Gate, c: Chunk, chunks: seq<Chunk>)
    requires !g.isOpen && !g.muted && c.level >= g.config.openThreshold
    ensures var h := Next(g, c).gate; (
              && h.config == g.config && JustOpened(h)
              && h.clockMs - h.openedAtMs == Elapsed(chunks[|chunks|..])
              && h.clockMs - h.lastAboveCloseMs == SinceLoud(chunks[|chunks|..], g.config.closeThreshold))
  {
    hide Chunk.DurMs, Prune, Chunks;
    assert chunks[|chunks|..] == [];
  }

  lemma NextOpen(g: Gate, c: Chunk)
    requires g.isOpen && !g.muted
    ensures var now := g.clockMs + c.DurMs();
            var above := if c.level >= g.config.closeThreshold then now else g.lastAboveCloseMs;
            var closes := now - above > g.config.hangoverMs && now - g.openedAtMs > g.config.minOnMs; (
              Next(g, c) == Outcome(g.(clockMs := now, lastAboveCloseMs := above, isOpen := !closes),
                                    if closes then Close else Transmit(c)))
  {
    hide Chunk.DurMs;
  }

  lemma LoudStep(g: Gate, chunks: seq<Chunk>, config: Config)
    requires chunks != [] && Follows(g, chunks[..|chunks| - 1], config)
    requires LegAfter(chunks[..|chunks| - 1], config).Loud?
    ensures Follows(Next(g, chunks[|chunks| - 1]).gate, chunks, config)
    ensures Next(g, chunks[|chunks| - 1]).action == Answer(chunks, config)
  {
    hide Chunk.DurMs, Splits, Rolled, Next, Elapsed, SinceLoud;
    var n := |chunks| - 1;
    var c, from := chunks[n], LegAfter(chunks[..n], config).from;
    SliceSnoc(chunks, from);
    TimesSnoc(chunks[..n][from..], c, config.closeThreshold);
    NextOpen(g, c);
    assert chunks[|chunks|..] == [];
    NothingHeld(Next(g, c).gate);
  }

  lemma TimesSnoc(chunks: seq<Chunk>, c: Chunk, threshold: real)
    ensures Elapsed(chunks + [c]) == Elapsed(chunks) + c.DurMs()
    ensures SinceLoud(chunks + [c], threshold)
         == if c.level >= threshold then 0.0 else SinceLoud(chunks, threshold) + c.DurMs()
  {
    hide Chunk.DurMs;
    assert (chunks + [c])[..|chunks|] == chunks;
  }

  /**
   * From a gate that is closed, not muted and holds nothing, as after a reset, over any chunks: the gate opens at the
   * first chunk at or above the open threshold, flushes exactly the recent chunks since it last closed, and closes at
   * the first chunk beyond both the minimum on-time and the hangover; and so on.
   */
  lemma {:induction false} GateRun(g: Gate, chunks: seq<Chunk>)
    requires !g.isOpen && !g.muted && g.preroll == []
    ensures Feed(g, chunks).actions == Answers(chunks, g.config)
    ensures Follows(Feed(g, chunks).gate, chunks, g.config)
  {
    hide Next, Answer, Follows;
    if chunks == [] {
      BeginFollows(g);
    } else {
      var n := |chunks| - 1;
      GateRun(g, chunks[..n]);
      var before := Feed(g, chunks[..n]).gate;
      if LegAfter(chunks[..n], g.config).Quiet? {
        QuietStep(before, chunks, g.config);
      } else {
        LoudStep(before, chunks, g.config);
      }
    }
  }

  lemma BeginFollows(g: Gate)
    requires !g.isOpen && !g.muted && g.preroll == []
    ensures Follows(g, [], g.config)
  {
    NothingHeld(g);
    var none: seq<Chunk> := [];
    assert none[0..] == [];
  }

  /** A closed gate has heard nothing loud since it closed, and closed at the first chunk that met the condition. */
  predicate WasQuiet(chunks: seq<Chunk>, from: nat, config: Config) {
    && from <= |chunks|
    && (forall i :: from <= i < |chunks| ==> chunks[i].level < config.openThreshold)
    && (from > 0 ==>
          var last := LegAfter(chunks[..from - 1], config);
          last.Loud? && MayClose(chunks[last.from..from], config))
  }

  /** An open gate was opened by a loud chunk, while it was closed, and has not met the closing condition since. */
  predicate WasLoud(chunks: seq<Chunk>, from: nat, config: Config) {
    && 0 < from <= |chunks| && chunks[from - 1].level >= config.openThreshold
    && LegAfter(chunks[..from - 1], config).Quiet?
    && (forall m :: from < m <= |chunks| ==> !MayClose(chunks[from..m], config))
  }

  lemma StillQuiet(chunks: seq<Chunk>, c: Chunk, from: nat, config: Config)
    requires WasQuiet(chunks, from, config) && c.level < config.openThreshold
    ensures WasQuiet(chunks + [c], from, config)
  {
    hide LegAfter, MayClose;
    if from > 0 {
      assert (chunks + [c])[..from - 1] == chunks[..from - 1];
      var last := LegAfter(chunks[..from - 1], config);
      assert (chunks + [c])[last.from..from] == chunks[last.from..from];
    }
  }

  lemma StillLoud(chunks: seq<Chunk>, c: Chunk, from: nat, config: Config)
    requires WasLoud(chunks, from, config) && !MayClose((chunks + [c])[from..], config)
    ensures WasLoud(chunks + [c], from, config)
  {
    hide LegAfter, MayClose;
    var all := chunks + [c];
    assert all[..from - 1] == chunks[..from - 1];
    forall m | from < m <= |all|
      ensures !MayClose(all[from..m], config)
    {
      if m <= |chunks| {
        assert all[from..m] == chunks[from..m];
      } else {
        assert all[from..m] == all[from..];
      }
    }
  }

  /** The legs of the reference are what their names say, over every sequence of chunks. */
  lemma {:induction false} LegMeans(chunks: seq<Chunk>, config: Config)
    ensures match LegAfter(chunks, config)
            case Quiet(from) => WasQuiet(chunks, from, config)
            case Loud(from) => WasLoud(chunks, from, config)
  {
    hide MayClose;
    if chunks != [] {
      var n := |chunks| - 1;
      var before := LegAfter(chunks[..n], config);
      LegMeans(chunks[..n], config);
      assert chunks[..n] + [chunks[n]] == chunks;
      assert before.Loud? ==> chunks[before.from..n + 1] == chunks[before.from..];
      if before.Quiet? && chunks[n].level < config.openThreshold {
        StillQuiet(chunks[..n], chunks[n], before.from, config);
      } else if before.Loud? && !MayClose(chunks[before.from..], config) {
        StillLoud(chunks[..n], chunks[n], before.from, config);
      }
    }
  }
}
