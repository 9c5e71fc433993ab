/** The playback budget of one voice: reservations, completions that may come late, and resets in between. */
module AudioBacklog {
  import opened Options

  /** `limit` is fixed; tokens are the generation in which a reservation was made. */
  datatype Budget = Budget(pending: real, generation: nat)

  const SLACK: real := 0.000001

  function Reserved(limit: real, b: Budget, duration: real): (Budget, Option<nat>) {
    if duration > 0.0 && b.pending + duration <= limit + SLACK
    then (b.(pending := b.pending + duration), Some(b.generation))
    else (b, None)
  }

  function Completed(b: Budget, duration: real, token: nat): Budget {
    if token != b.generation then b
    else b.(pending := if b.pending - duration > 0.0 then b.pending - duration else 0.0)
  }

  function Emptied(b: Budget): Budget {
    Budget(0.0, b.generation + 1)
  }

  class AudioBacklog {
    const limit: real
    var pending: real
    var generation: nat

    ghost function State(): Budget
      reads this
    {
      Budget(pending, generation)
    }

    constructor (limit: real)
      ensures this.limit == limit && State() == Budget(0.0, 0)
    {
      this.limit := limit;
      pending := 0.0;
      generation := 0;
    }

    method Reserve(duration: real) returns (token: Option<nat>)
      modifies this
      ensures (State(), token) == Reserved(limit, old(State()), duration)
    {
      if !(duration > 0.0 && pending + duration <= limit + SLACK) {
        return None;
      }
      pending := pending + duration;
      return Some(generation);
    }

    method Complete(duration: real, token: nat)
      modifies this
      ensures State() == Completed(old(State()), duration, token)
    {
      if token != generation {
        return;
      }
      pending := if pending - duration > 0.0 then pending - duration else 0.0;
    }

    method Reset()
      modifies this
      ensures State() == Emptied(old(State()))
    {
      generation := generation + 1;
      pending := 0.0;
    }

    /** The use in the player: a full backlog is dropped and the reservation is tried once more. */
    method Play(duration: real) returns (token: Option<nat>)
      modifies this
      ensures (State(), token) == Played(limit, old(State()), duration)
    {
      token := Reserve(duration);
      if token.None? {
        Reset();
        token := Reserve(duration);
      }
    }
  }

  function Played(limit: real, b: Budget, duration: real): (Budget, Option<nat>) {
    var first := Reserved(limit, b, duration);
    if first.1.Some? then first else Reserved(limit, Emptied(b), duration)
  }

  // ----- every interleaving of reservations, completions and resets

  datatype Booking = Booking(duration: real, token: nat)

  /** The backlog together with the scheduled buffers whose completion has not come yet. */
  datatype Voice = Voice(budget: Budget, booked: seq<Booking>)

  datatype Move = Reserve(duration: real) | Play(duration: real) | Complete(k: nat) | Reset

  function Without(booked: seq<Booking>, k: nat): seq<Booking>
    requires k < |booked|
  {
    booked[..k] + booked[k + 1..]
  }

  function Step(limit: real, v: Voice, move: Move): Voice {
    match move
    case Reserve(duration) =>
      var r := Reserved(limit, v.budget, duration);
      Voice(r.0, if r.1.Some? then v.booked + [Booking(duration, r.1.value)] else v.booked)
    case Play(duration) =>
      var r := Played(limit, v.budget, duration);
      Voice(r.0, if r.1.Some? then v.booked + [Booking(duration, r.1.value)] else v.booked)
    case Complete(k) =>
      if k < |v.booked|
      then Voice(Completed(v.budget, v.booked[k].duration, v.booked[k].token), Without(v.booked, k))
      else v
    case Reset =>
      Voice(Emptied(v.budget), v.booked)
  }

  function Run(limit: real, moves: seq<Move>): Voice {
    if moves == [] then Voice(Budget(0.0, 0), [])
    else Step(limit, Run(limit, moves[..|moves| - 1]), moves[|moves| - 1])
  }

  /** The durations booked in the given generation. */
  function Due(booked: seq<Booking>, generation: nat): real {
    if booked == [] then 0.0
    else
      var last := booked[|booked| - 1];
      Due(booked[..|booked| - 1], generation) + (if last.token == generation then last.duration else 0.0)
  }

  ghost predicate Balanced(limit: real, v: Voice) {
    && v.budget.pending == Due(v.booked, v.budget.generation)
    && (forall i :: 0 <= i < |v.booked| ==> v.booked[i].duration > 0.0 && v.booked[i].token <= v.budget.generation)
    && (v.budget.pending == 0.0 || v.budget.pending <= limit + SLACK)
  }

  lemma {:induction false} DueWithout(booked: seq<Booking>, k: nat, generation: nat)
    requires k < |booked|
    ensures Due(booked, generation)
         == Due(Without(booked, k), generation) + (if booked[k].token == generation then booked[k].duration else 0.0)
  {
    var n := |booked| - 1;
    if k < n {
      DueWithout(booked[..n], k, generation);
      assert Without(booked, k)[..n - 1] == Without(booked[..n], k);
      assert Without(booked, k)[n - 1] == booked[n];
    } else {
      assert Without(booked, k) == booked[..n];
    }
  }

  lemma {:induction false} DueNonNegative(booked: seq<Booking>, generation: nat)
    requires forall i :: 0 <= i < |booked| ==> booked[i].duration > 0.0
    ensures Due(booked, generation) >= 0.0
  {
    if booked != [] {
      DueNonNegative(booked[..|booked| - 1], generation);
    }
  }

  lemma {:induction false} DueLater(booked: seq<Booking>, generation: nat)
    requires forall i :: 0 <= i < |booked| ==> booked[i].token < generation
    ensures Due(booked, generation) == 0.0
  {
    if booked != [] {
      DueLater(booked[..|booked| - 1], generation);
    }
  }

  lemma DueSnoc(booked: seq<Booking>, b: Booking, generation: nat)
    ensures Due(booked + [b], generation) == Due(booked, generation)
                                              + (if b.token == generation then b.duration else 0.0)
  {
    assert (booked + [b])[..|booked|] == booked;
  }

  lemma ReserveBalanced(limit: real, v: Voice, duration: real)
    requires Balanced(limit, v)
    ensures Balanced(limit, Step(limit, v, Reserve(duration)))
  {
    hide Due;
    DueSnoc(v.booked, Booking(duration, v.budget.generation), v.budget.generation);
  }

  lemma ResetBalanced(limit: real, v: Voice)
    requires Balanced(limit, v)
    ensures Balanced(limit, Step(limit, v, Reset))
  {
    hide Due;
    DueLater(v.booked, v.budget.generation + 1);
  }

  lemma CompleteBalanced(limit: real, v: Voice, k: nat)
    requires Balanced(limit, v) && k < |v.booked|
    ensures Balanced(limit, Step(limit, v, Complete(k)))
  {
    hide Due;
    DueWithout(v.booked, k, v.budget.generation);
    DueNonNegative(Without(v.booked, k), v.budget.generation);
  }

  lemma StepBalanced(limit: real, v: Voice, move: Move)
    requires Balanced(limit, v)
    ensures Balanced(limit, Step(limit, v, move))
  {
    hide Balanced;
    match move
    case Reserve(duration) => ReserveBalanced(limit, v, duration);
    case Play(duration) =>
      ReserveBalanced(limit, v, duration);
      ResetBalanced(limit, v);
      ReserveBalanced(limit, Step(limit, v, Reset), duration);
    case Complete(k) =>
      if k < |v.booked| {
        CompleteBalanced(limit, v, k);
      }
    case Reset => ResetBalanced(limit, v);
  }

  /** In every reachable state the pending time is the sum of the outstanding reservations of this generation, and it
      never exceeds the limit. */
  lemma {:induction false} AlwaysBalanced(limit: real, moves: seq<Move>)
    ensures Balanced(limit, Run(limit, moves))
  {
    if moves != [] {
      AlwaysBalanced(limit, moves[..|moves| - 1]);
      StepBalanced(limit, Run(limit, moves[..|moves| - 1]), moves[|moves| - 1]);
    }
  }

  /** So the clamp at zero never acts, and a stale completion changes nothing. */
  lemma ClampNeverActs(limit: real, moves: seq<Move>, k: nat)
    requires k < |Run(limit, moves).booked|
    ensures var v := Run(limit, moves);
            var b := v.booked[k]; (
              Completed(v.budget, b.duration, b.token).pending
              == if b.token == v.budget.generation then v.budget.pending - b.duration else v.budget.pending)
  {
    AlwaysBalanced(limit, moves);
    var v := Run(limit, moves);
    DueWithout(v.booked, k, v.budget.generation);
    DueNonNegative(Without(v.booked, k), v.budget.generation);
  }

  /** A buffer is dropped by the player exactly when it alone exceeds the limit (or is empty). */
  lemma PlayAccepts(limit: real, moves: seq<Move>, duration: real)
    ensures Played(limit, Run(limit, moves).budget, duration).1.Some? <==> 0.0 < duration <= limit + 0.000001
  {
    AlwaysBalanced(limit, moves);
    var v := Run(limit, moves);
    DueNonNegative(v.booked, v.budget.generation);
  }
}
