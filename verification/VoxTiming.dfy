/** When the gate opens and closes, judged against the elapsed times of the chunks alone. */
module VoxTiming {
  import opened VoxGate

  datatype Trace = Trace(gate: Gate, actions: seq<Action>)

  function Feed(g: Gate, chunks: seq<Chunk>): Trace {
    if chunks == [] then Trace(g, [])
    else
      var n := |chunks| - 1;
      var before := Feed(g, chunks[..n]);
      var next := Next(before.gate, chunks[n]);
      Trace(next.gate, before.actions + [next.action])
  }

  function Elapsed(chunks: seq<Chunk>): (r: real)
    ensures r >= 0.0
  {
    if chunks == [] then 0.0 else Elapsed(chunks[..|chunks| - 1]) + chunks[|chunks| - 1].DurMs()
  }

  /** The time since the end of the last chunk at or above the threshold, or since the start. */
  function SinceLoud(chunks: seq<Chunk>, threshold: real): real {
    if chunks == [] then 0.0
    else
      var last := chunks[|chunks| - 1];
      if last.level >= threshold then 0.0 else SinceLoud(chunks[..|chunks| - 1], threshold) + last.DurMs()
  }

  /** Open for longer than the minimum on-time, and quiet for longer than the hangover. */
  predicate MayClose(chunks: seq<Chunk>, config: Config) {
    SinceLoud(chunks, config.closeThreshold) > config.hangoverMs && Elapsed(chunks) > config.minOnMs
  }

  predicate JustOpened(g: Gate) {
    g.isOpen && !g.muted && g.openedAtMs == g.clockMs && g.lastAboveCloseMs == g.clockMs && g.preroll == []
  }

  function Transmits(chunks: seq<Chunk>): seq<Action> {
    seq(|chunks|, i requires 0 <= i < |chunks| => Transmit(chunks[i]))
  }

  /** As long as no chunk satisfies the closing condition, everything is transmitted. */
  lemma {:induction false} StaysOpen(g: Gate, chunks: seq<Chunk>)
    requires JustOpened(g)
    requires forall m :: 0 < m <= |chunks| ==> !MayClose(chunks[..m], g.config)
    ensures var t := Feed(g, chunks); (
              && t.gate.isOpen && !t.gate.muted && t.gate.config == g.config && t.gate.preroll == []
              && t.gate.openedAtMs == g.openedAtMs
              && t.gate.clockMs - g.openedAtMs == Elapsed(chunks)
              && t.gate.clockMs - t.gate.lastAboveCloseMs == SinceLoud(chunks, g.config.closeThreshold)
              && t.actions == Transmits(chunks))
  {
    hide Chunk.DurMs;
    if chunks != [] {
      var n := |chunks| - 1;
      forall m | 0 < m <= n
        ensures !MayClose(chunks[..n][..m], g.config)
      {
        assert chunks[..n][..m] == chunks[..m];
      }
      StaysOpen(g, chunks[..n]);
      assert chunks[..n + 1] == chunks;
      assert Transmits(chunks) == Transmits(chunks[..n]) + [Transmit(chunks[n])];
    }
  }

  /** The gate closes at the first chunk that satisfies the closing condition, and at no other. */
  lemma ClosesExactly(g: Gate, chunks: seq<Chunk>)
    requires JustOpened(g) && chunks != []
    requires forall m :: 0 < m < |chunks| ==> !MayClose(chunks[..m], g.config)
    ensures var t := Feed(g, chunks); var n := |chunks| - 1; (
              t.actions == Transmits(chunks[..n])
                           + [if MayClose(chunks, g.config) then Close else Transmit(chunks[n])])
    ensures Feed(g, chunks).gate.isOpen <==> !MayClose(chunks, g.config)
    ensures !Feed(g, chunks).gate.muted && Feed(g, chunks).gate.preroll == []
  {
    hide Chunk.DurMs;
    var n := |chunks| - 1;
    forall m | 0 < m <= n
      ensures !MayClose(chunks[..n][..m], g.config)
    {
      assert chunks[..n][..m] == chunks[..m];
    }
    StaysOpen(g, chunks[..n]);
  }

  // ----- pre-roll

  lemma {:induction false} ElapsedSplit(a: seq<Chunk>, b: seq<Chunk>)
    ensures Elapsed(a + b) == Elapsed(a) + Elapsed(b)
  {
    hide Chunk.DurMs;
    if b == [] {
      assert a + b == a;
    } else {
      var n := |b| - 1;
      assert (a + b)[..|a| + n] == a + b[..n];
      ElapsedSplit(a, b[..n]);
    }
  }

  /** How long ago chunk i ended. */
  function Age(chunks: seq<Chunk>, i: nat): real
    requires i < |chunks|
  {
    Elapsed(chunks[i + 1..])
  }

  lemma AgeSnoc(chunks: seq<Chunk>, c: Chunk, i: nat)
    requires i < |chunks|
    ensures Age(chunks + [c], i) == Age(chunks, i) + c.DurMs()
    ensures Age(chunks + [c], |chunks|) == 0.0
  {
    hide Chunk.DurMs;
    assert (chunks + [c])[i + 1..] == chunks[i + 1..] + [c];
    assert (chunks[i + 1..] + [c])[..|chunks[i + 1..]|] == chunks[i + 1..];
    assert (chunks + [c])[|chunks| + 1..] == [];
  }

  lemma AgeFalls(chunks: seq<Chunk>, i: nat, j: nat)
    requires i <= j < |chunks|
    ensures Age(chunks, j) <= Age(chunks, i)
  {
    hide Chunk.DurMs;
    assert chunks[i + 1..] == chunks[i + 1..j + 1] + chunks[j + 1..];
    ElapsedSplit(chunks[i + 1..j + 1], chunks[j + 1..]);
  }

  /** The pre-roll holds the chunks from k on, with their ages; `limit` separates them from the dropped ones. */
  ghost predicate Rolled(clockMs: real, held: seq<Held>, chunks: seq<Chunk>, k: nat) {
    && k <= |chunks| && |held| == |chunks| - k
    && (forall j :: 0 <= j < |held| ==> held[j].chunk == chunks[k + j])
    && (forall j :: 0 <= j < |held| ==> clockMs - held[j].endMs == Age(chunks, k + j))
  }

  ghost predicate Splits(chunks: seq<Chunk>, k: nat, limit: real) {
    && k <= |chunks|
    && (forall i :: 0 <= i < k ==> Age(chunks, i) > limit)
    && (forall i :: k <= i < |chunks| ==> Age(chunks, i) <= limit)
  }

  lemma {:induction false} PruneRolled(clockMs: real, limit: real, held: seq<Held>, chunks: seq<Chunk>, k: nat)
    returns (k': nat)
    requires Rolled(clockMs, held, chunks, k)
    requires forall i :: 0 <= i < k ==> Age(chunks, i) > limit
    ensures Rolled(clockMs, Prune(held, clockMs, limit), chunks, k')
    ensures Splits(chunks, k', limit)
    decreases |held|
  {
    hide Age;
    if held != [] && clockMs - held[0].endMs > limit {
      assert clockMs - held[0].endMs == Age(chunks, k + 0);
      forall j | 0 <= j < |held[1..]|
        ensures held[1..][j].chunk == chunks[k + 1 + j]
        ensures clockMs - held[1..][j].endMs == Age(chunks, k + 1 + j)
      {
        assert held[1 + j].chunk == chunks[k + (1 + j)];
        assert clockMs - held[1 + j].endMs == Age(chunks, k + (1 + j));
      }
      k' := PruneRolled(clockMs, limit, held[1..], chunks, k + 1);
    } else {
      k' := k;
      if held != [] {
        assert clockMs - held[0].endMs == Age(chunks, k + 0);
        forall i | k <= i < |chunks|
          ensures Age(chunks, i) <= limit
        {
          AgeFalls(chunks, k, i);
        }
      }
    }
  }

  /** One more chunk in the pre-roll, before pruning. */
  lemma RolledSnoc(g: Gate, chunks: seq<Chunk>, k: nat, c: Chunk)
    requires Rolled(g.clockMs, g.preroll, chunks, k) && Splits(chunks, k, g.config.preRollMs)
    ensures var now := g.clockMs + c.DurMs(); (
              && Rolled(now, g.preroll + [Held(c, now)], chunks + [c], k)
              && forall i :: 0 <= i < k ==> Age(chunks + [c], i) > g.config.preRollMs)
  {
    hide Chunk.DurMs, Age;
    var now := g.clockMs + c.DurMs();
    var held := g.preroll + [Held(c, now)];
    forall j | 0 <= j < |held|
      ensures now - held[j].endMs == Age(chunks + [c], k + j)
    {
      if j < |g.preroll| {
        assert g.clockMs - g.preroll[j].endMs == Age(chunks, k + j);
        AgeSnoc(chunks, c, k + j);
      } else {
        AgeLast(chunks, c);
      }
    }
    forall i | 0 <= i < k
      ensures Age(chunks + [c], i) > g.config.preRollMs
    {
      AgeSnoc(chunks, c, i);
      DurPositive(c);
    }
  }

  lemma AgeLast(chunks: seq<Chunk>, c: Chunk)
    ensures Age(chunks + [c], |chunks|) == 0.0
  {
    assert (chunks + [c])[|chunks| + 1..] == [];
  }

  lemma DurPositive(c: Chunk)
    ensures c.DurMs() >= 0.0
  {
  }

  lemma NothingHeld(g: Gate)
    ensures Splits([], 0, g.config.preRollMs) && Rolled(g.clockMs, [], [], 0)
  {
  }

  lemma NextClosed(g: Gate, c: Chunk)
    requires !g.isOpen && !g.muted
    ensures var now := g.clockMs + c.DurMs();
            var held := Prune(g.preroll + [Held(c, now)], now, g.config.preRollMs); (
              if c.level < g.config.openThreshold
              then Next(g, c) == Outcome(g.(clockMs := now, preroll := held), Idle)
              else Next(g, c).action == Open(Chunks(held)) && JustOpened(Next(g, c).gate))
  {
    hide Chunk.DurMs, Prune, Chunks;
  }

  /** While nothing reaches the open threshold the gate keeps exactly the recent chunks. */
  lemma {:induction false} StaysClosed(g: Gate, chunks: seq<Chunk>) returns (k: nat)
    requires !g.isOpen && !g.muted && g.preroll == []
    requires forall i :: 0 <= i < |chunks| ==> chunks[i].level < g.config.openThreshold
    ensures var t := Feed(g, chunks); (
              && !t.gate.isOpen && !t.gate.muted && t.gate.config == g.config
              && Rolled(t.gate.clockMs, t.gate.preroll, chunks, k)
              && Splits(chunks, k, g.config.preRollMs)
              && t.actions == seq(|chunks|, _ => Idle))
  {
    hide Chunk.DurMs, Prune, Age, Chunks, Splits, Rolled, Next;
    if chunks == [] {
      k := 0;
      NothingHeld(g);
    } else {
      var n := |chunks| - 1;
      var k0 := StaysClosed(g, chunks[..n]);
      var before := Feed(g, chunks[..n]).gate;
      assert chunks[..n] + [chunks[n]] == chunks;
      NextClosed(before, chunks[n]);
      RolledSnoc(before, chunks[..n], k0, chunks[n]);
      var now := before.clockMs + chunks[n].DurMs();
      k := PruneRolled(now, g.config.preRollMs, before.preroll + [Held(chunks[n], now)], chunks, k0);
      assert seq(|chunks|, _ => Idle) == seq(n, _ => Idle) + [Idle];
    }
  }

  lemma ChunksOfRolled(clockMs: real, held: seq<Held>, chunks: seq<Chunk>, k: nat)
    requires Rolled(clockMs, held, chunks, k)
    ensures Chunks(held) == chunks[k..]
  {
    hide Age;
  }

  /** The flush on opening is exactly the maximal suffix of the chunks since the last close or reset that ended within
      the pre-roll time, in order, with the opening chunk last. */
  lemma OpensWithRecent(g: Gate, quiet: seq<Chunk>, loud: Chunk) returns (k: nat)
    requires !g.isOpen && !g.muted && g.preroll == []
    requires forall i :: 0 <= i < |quiet| ==> quiet[i].level < g.config.openThreshold
    requires loud.level >= g.config.openThreshold
    ensures Splits(quiet + [loud], k, g.config.preRollMs)
    ensures Feed(g, quiet + [loud]).actions == seq(|quiet|, _ => Idle) + [Open((quiet + [loud])[k..])]
    ensures JustOpened(Feed(g, quiet + [loud]).gate)
  {
    hide Chunk.DurMs, Prune, Age, Chunks, Splits, Next, JustOpened;
    var chunks := quiet + [loud];
    assert chunks[..|quiet|] == quiet;
    var k0 := StaysClosed(g, quiet);
    var before := Feed(g, quiet).gate;
    NextClosed(before, loud);
    RolledSnoc(before, quiet, k0, loud);
    var now := before.clockMs + loud.DurMs();
    var held := before.preroll + [Held(loud, now)];
    k := PruneRolled(now, g.config.preRollMs, held, chunks, k0);
    ChunksOfRolled(now, Prune(held, now, g.config.preRollMs), chunks, k);
  }

  // ----- a stale mute

  /** A mute-close left over from an earlier mute: the gate is closed already. */
  predicate Stale(g: Gate) {
    g.pendingCloseFromMute && !g.isOpen
  }

  /** A close is reported by a gate that was not open exactly when it is muted with a stale mute-close; and a chunk
      makes a mute-close stale exactly when an unmuted gate closes by itself before the mute-close was delivered. */
  lemma CloseWhileClosedIff(g: Gate, c: Chunk)
    ensures !g.isOpen && Next(g, c).action.Close? <==> g.muted && Stale(g)
    ensures !Stale(g) ==>
              (Stale(Next(g, c).gate)
               <==> !g.muted && g.isOpen && g.pendingCloseFromMute && Next(g, c).action.Close?)
    ensures !Stale(g) ==> !Stale(Muted(g, true)) && !Stale(Muted(g, false)) && !Stale(Cleared(g))
  {
  }

  /** The gate alone can report a close that closes nothing: after mute, unmute and a natural close, the next mute still
      finds the close of the first mute pending. */
  lemma SpuriousClose(g: Gate, quiet: Chunk, next: Chunk)
    requires JustOpened(g) && MayClose([quiet], g.config)
    ensures var unmuted := Muted(Muted(g, true), false);
            var closed := Next(unmuted, quiet);
            var again := Next(Muted(closed.gate, true), next); (
              closed.action == Close && !closed.gate.isOpen && again.action == Close)
  {
    hide Chunk.DurMs;
    assert [quiet][..0] == [];
    assert Elapsed([quiet]) == quiet.DurMs();
    assert SinceLoud([quiet], g.config.closeThreshold)
        == if quiet.level >= g.config.closeThreshold then 0.0 else quiet.DurMs();
  }
}
