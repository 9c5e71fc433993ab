/** The capture budget: the tap reserves time, the worker checks the token before delivering and gives the time back. */
module CaptureDelivery {
  import opened Options

  const LIMIT: real := 0.2

  datatype Delivery = Delivery(active: bool, generation: nat, pending: real)

  function Begun(d: Delivery): Delivery {
    Delivery(true, d.generation + 1, 0.0)
  }

  function Stopped(d: Delivery): Delivery {
    Delivery(false, d.generation + 1, 0.0)
  }

  function Submitted(d: Delivery, duration: real): (Delivery, Option<nat>) {
    if d.active && d.pending + duration <= LIMIT
    then (d.(pending := d.pending + duration), Some(d.generation))
    else (d, None)
  }

  /** A chunk is accepted while the capture is on and no more than a fifth of a second is on its way with it. */
  lemma SubmittedIff(d: Delivery, samples: nat, rate: nat)
    requires rate > 0
    ensures Submitted(d, samples as real / rate as real).1.Some?
            <==> d.active && (d.pending * rate as real + samples as real) * 5.0 <= rate as real
  {
    var r := rate as real;
    var x := samples as real / r;
    assert x * r == samples as real;
    assert (d.pending + x) * r == d.pending * r + samples as real;
    if d.pending + x <= LIMIT {
      assert (LIMIT - (d.pending + x)) * r >= 0.0;
    } else {
      assert (d.pending + x - LIMIT) * r > 0.0;
    }
  }

  predicate Current(d: Delivery, token: nat) {
    d.active && token == d.generation
  }

  function Finished(d: Delivery, duration: real, token: nat): Delivery {
    if token != d.generation then d
    else d.(pending := if d.pending - duration > 0.0 then d.pending - duration else 0.0)
  }

  /** Each method is one critical section of the source's lock. */
  class CaptureDelivery {
    var active: bool
    var generation: nat
    var pending: real

    ghost function State(): Delivery
      reads this
    {
      Delivery(active, generation, pending)
    }

    constructor ()
      ensures State() == Delivery(false, 0, 0.0)
    {
      active := false;
      generation := 0;
      pending := 0.0;
    }

    method Begin()
      modifies this
      ensures State() == Begun(old(State()))
    {
      generation := generation + 1;
      pending := 0.0;
      active := true;
    }

    method Stop()
      modifies this
      ensures State() == Stopped(old(State()))
    {
      active := false;
      generation := generation + 1;
      pending := 0.0;
    }

    /** The tap's half of `submit`: `lockFree` says whether `lock.try()` succeeds. */
    method Submit(count: nat, rate: nat, lockFree: bool) returns (token: Option<nat>)
      modifies this
      ensures (State(), token)
           == if count == 0 || rate == 0 || !lockFree then (old(State()), None)
              else Submitted(old(State()), count as real / rate as real)
    {
      if count == 0 || rate == 0 || !lockFree {
        return None;
      }
      var duration := count as real / rate as real;
      if !(active && pending + duration <= LIMIT) {
        return None;
      }
      token := Some(generation);
      pending := pending + duration;
    }

    method Check(token: nat) returns (valid: bool)
      ensures valid == Current(State(), token)
    {
      valid := active && token == generation;
    }

    method Finish(duration: real, token: nat)
      modifies this
      ensures State() == Finished(old(State()), duration, token)
    {
      if token == generation {
        pending := if pending - duration > 0.0 then pending - duration else 0.0;
      }
    }
  }
}
