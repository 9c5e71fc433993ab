/** The voice-activity gate: hysteresis, hangover, minimum on-time, pre-roll and hard mute.

    Times and levels are real numbers, so that the order of floating-point roundings plays no role. The level of a chunk
    is an input: its measurement from samples is not part of this model. */
module VoxGate {

  /** A captured chunk. `level` is its level in dBFS. Two fields only say where it comes from: `session` is the capture
      session that recorded it and `id` its position in the capture order. */
  datatype Chunk = Chunk(session: nat, id: nat, samples: nat, rate: nat, level: real)
  {
    function DurMs(): (r: real)
      ensures r >= 0.0
    {
      if rate > 0 then samples as real / rate as real * 1000.0 else 0.0
    }
  }

  datatype Config = Config(openThreshold: real, closeThreshold: real, hangoverMs: real, minOnMs: real, preRollMs: real)

  datatype Held = Held(chunk: Chunk, endMs: real)

  datatype Action = Idle | Open(flush: seq<Chunk>) | Transmit(chunk: Chunk) | Close

  /** The fields of the gate. */
  datatype Gate = Gate(
    config: Config,
    muted: bool,
    isOpen: bool,
    clockMs: real,
    openedAtMs: real,
    lastAboveCloseMs: real,
    preroll: seq<Held>,
    pendingCloseFromMute: bool)

  function Muted(g: Gate, muted: bool): Gate {
    g.(muted := muted, pendingCloseFromMute := g.pendingCloseFromMute || (muted && g.isOpen))
  }

  function Cleared(g: Gate): Gate {
    Gate(g.config, g.muted, false, 0.0, 0.0, 0.0, [], false)
  }

  /** The pruning loop: old chunks leave from the front. */
  function Prune(held: seq<Held>, clockMs: real, preRollMs: real): (r: seq<Held>)
    ensures |r| <= |held| && r == held[|held| - |r|..]
  {
    if held != [] && clockMs - held[0].endMs > preRollMs then Prune(held[1..], clockMs, preRollMs) else held
  }

  function Chunks(held: seq<Held>): (r: seq<Chunk>)
    ensures |r| == |held|
    ensures forall i :: 0 <= i < |r| ==> r[i] == held[i].chunk
  {
    seq(|held|, i requires 0 <= i < |held| => held[i].chunk)
  }

  datatype Outcome = Outcome(gate: Gate, action: Action)

  function Next(g: Gate, chunk: Chunk): Outcome {
    var now := g.clockMs + chunk.DurMs();
    var g := g.(clockMs := now);
    if g.muted then
      if g.isOpen || g.pendingCloseFromMute
      then Outcome(g.(preroll := [], isOpen := false, pendingCloseFromMute := false), Close)
      else Outcome(g.(preroll := []), Idle)
    else if !g.isOpen then
      var held := Prune(g.preroll + [Held(chunk, now)], now, g.config.preRollMs);
      if chunk.level < g.config.openThreshold then Outcome(g.(preroll := held), Idle)
      else Outcome(g.(isOpen := true, openedAtMs := now, lastAboveCloseMs := now, preroll := []), Open(Chunks(held)))
    else
      var above := if chunk.level >= g.config.closeThreshold then now else g.lastAboveCloseMs;
      var g := g.(lastAboveCloseMs := above);
      if now - above > g.config.hangoverMs && now - g.openedAtMs > g.config.minOnMs
      then Outcome(g.(isOpen := false), Close)
      else Outcome(g, Transmit(chunk))
  }

  class VoxGate {
    var config: Config
    var muted: bool
    var isOpen: bool
    var clockMs: real
    var openedAtMs: real
    var lastAboveCloseMs: real
    var preroll: seq<Held>
    var pendingCloseFromMute: bool

    ghost function State(): Gate
      reads this
    {
      Gate(config, muted, isOpen, clockMs, openedAtMs, lastAboveCloseMs, preroll, pendingCloseFromMute)
    }

    constructor (config: Config)
      ensures State() == Cleared(Gate(config, false, false, 0.0, 0.0, 0.0, [], false))
    {
      this.config := config;
      muted := false;
      isOpen := false;
      clockMs := 0.0;
      openedAtMs := 0.0;
      lastAboveCloseMs := 0.0;
      preroll := [];
      pendingCloseFromMute := false;
    }

    method SetMuted(value: bool)
      modifies this
      ensures State() == Muted(old(State()), value)
    {
      muted := value;
      if muted && isOpen {
        pendingCloseFromMute := true;
      }
    }

    method Reset()
      modifies this
      ensures State() == Cleared(old(State()))
    {
      isOpen := false;
      clockMs := 0.0;
      openedAtMs := 0.0;
      lastAboveCloseMs := 0.0;
      preroll := [];
      pendingCloseFromMute := false;
    }

    method DropOld()
      modifies this`preroll
      ensures preroll == Prune(old(preroll), clockMs, config.preRollMs)
    {
      while preroll != [] && clockMs - preroll[0].endMs > config.preRollMs
        invariant Prune(preroll, clockMs, config.preRollMs) == Prune(old(preroll), clockMs, config.preRollMs)
        decreases |preroll|
      {
        preroll := preroll[1..];
      }
    }

    method Process(chunk: Chunk) returns (action: Action)
      modifies this
      ensures Outcome(State(), action) == Next(old(State()), chunk)
    {
      hide Chunk.DurMs, Prune, Chunks;
      clockMs := clockMs + chunk.DurMs();
      if muted {
        preroll := [];
        if isOpen || pendingCloseFromMute {
          isOpen := false;
          pendingCloseFromMute := false;
          return Close;
        }
        return Idle;
      }
      if !isOpen {
        preroll := preroll + [Held(chunk, clockMs)];
        DropOld();
        if chunk.level < config.openThreshold {
          return Idle;
        }
        isOpen := true;
        openedAtMs := clockMs;
        lastAboveCloseMs := clockMs;
        var flush := Chunks(preroll);
        preroll := [];
        return Open(flush);
      }
      if chunk.level >= config.closeThreshold {
        lastAboveCloseMs := clockMs;
      }
      var heldFor := clockMs - openedAtMs;
      var sinceAbove := clockMs - lastAboveCloseMs;
      if sinceAbove > config.hangoverMs && heldFor > config.minOnMs {
        isOpen := false;
        return Close;
      }
      return Transmit(chunk);
    }
  }
}
