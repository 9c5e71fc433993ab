/**
 * The two transmitters as objects. Every method is what one thread does without interruption, and is proved to be one
 * turn of CaptureSystem; so what is proved of its runs holds of these objects.
 */
module CaptureActors {
  import opened Options
  import opened VoxGate
  import opened CaptureDelivery
  import opened CaptureSystem

  /** A transmitter and its capture object. */
  class Transmitter {
    var flag: bool
    var running: bool
    const delivery: CaptureDelivery
    var session: nat
    var captured: seq<Chunk>
    var inflight: Option<Packet>

    ghost function Now(): Side
      reads this, delivery
    {
      Side(flag, running, delivery.State(), session, captured, inflight)
    }

    constructor ()
      ensures Now() == CaptureSystem.Idle() && fresh(delivery)
    {
      flag, running, session, captured, inflight := false, false, 0, [], None;
      delivery := new CaptureDelivery();
    }
  }

  class Client {
    const ptt: Transmitter
    const vox: Transmitter
    const gate: VoxGate
    var gateOpen: bool
    var queue: seq<Task>
    var work: Work
    var hops: seq<Who>
    var stopping: Option<Who>
    var log: seq<Call>

    ghost predicate Valid()
      reads this, ptt, vox
    {
      ptt != vox && ptt.delivery != vox.delivery
    }

    ghost function Now(): State
      reads this, ptt, ptt.delivery, vox, vox.delivery, gate
    {
      State(ptt.Now(), vox.Now(), queue, work, hops, stopping, gate.State(), gateOpen, log)
    }

    constructor (config: Config)
      ensures Valid() && Now() == Initial(config)
      ensures fresh(ptt) && fresh(vox) && fresh(ptt.delivery) && fresh(vox.delivery) && fresh(gate)
    {
      ptt := new Transmitter();
      vox := new Transmitter();
      gate := new VoxGate(config);
      gateOpen, queue, work, hops, stopping, log := false, [], Free, [], None, [];
    }

    function Of(who: Who): Transmitter {
      if who.Ptt? then ptt else vox
    }

    // ----- main thread

    method Start(who: Who, microphone: bool)
      requires Valid() && stopping == None
      modifies this`queue, ptt`flag, vox`flag
      ensures Now() == Step(old(Now()), PressStart(who, microphone))
    {
      var t := Of(who);
      if t.flag || (who.Ptt? && !microphone) {
        return;
      }
      queue := queue + [Task.Start(who)];
      t.flag := true;
    }

    /** A stop up to where it releases the capture's lock; `QueueStop` goes on from there. */
    method Stop(who: Who)
      requires Valid() && stopping == None
      modifies this`stopping, ptt.delivery, vox.delivery
      ensures Now() == Step(old(Now()), PressStop(who))
    {
      var t := Of(who);
      if !t.flag {
        return;
      }
      t.delivery.Stop();
      stopping := Some(who);
    }

    method QueueStop()
      requires Valid() && stopping.Some?
      modifies this`queue, this`stopping, ptt`flag, vox`flag
      ensures Now() == Step(old(Now()), Turn.QueueStop)
    {
      queue := queue + [Task.Stop(stopping.value)];
      Of(stopping.value).flag := false;
      stopping := None;
    }

    method Mute(value: bool)
      modifies this`queue
      ensures Now() == Step(old(Now()), SetMuted(value))
    {
      queue := queue + [Task.Mute(value)];
    }

    method Tune(threshold: real)
      modifies this`queue
      ensures Now() == Step(old(Now()), SetThreshold(threshold))
    {
      queue := queue + [Task.Tune(threshold)];
    }

    /** The block an error left for the main thread. */
    method ErrorHop()
      requires Valid() && stopping == None
      modifies this`hops, ptt`flag, vox`flag
      ensures Now() == Step(old(Now()), Hop)
    {
      if hops != [] {
        Of(hops[0]).flag := false;
        hops := hops[1..];
      }
    }

    // ----- tap threads

    /** A reservation and a copy of the chunk; a busy lock drops the chunk like an empty one. */
    method TapChunk(who: Who, samples: nat, rate: nat, level: real, lockFree: bool)
      requires Valid()
      modifies ptt, vox, ptt.delivery, vox.delivery
      ensures Now() == Step(old(Now()), Tap(who, if lockFree then samples else 0, rate, level))
    {
      var t := Of(who);
      if t.inflight.Some? {
        return;
      }
      var token := t.delivery.Submit(samples, rate, lockFree);
      if token.None? {
        return;
      }
      var chunk := Chunk(t.session, |t.captured|, samples, rate, level);
      t.captured := t.captured + [chunk];
      t.inflight := Some(Packet(token.value, samples as real / rate as real, chunk));
    }

    method Enqueue(who: Who)
      requires Valid()
      modifies this`queue, ptt`inflight, vox`inflight
      ensures Now() == Step(old(Now()), TapEnqueue(who))
    {
      var t := Of(who);
      if t.inflight.Some? {
        queue := queue + [Deliver(who, t.inflight.value)];
        t.inflight := None;
      }
    }

    // ----- worker

    method Call(call: Call)
      modifies this`log
      ensures log == old(log) + [call]
    {
      log := log + [call];
    }

    /** The next piece of work: a task, or the next piece of the delivery begun before. */
    method Work(ok: bool, recent: bool)
      requires Valid()
      modifies this, ptt, vox, ptt.delivery, vox.delivery, gate
      ensures Now() == Step(old(Now()), Worker(ok, recent))
    {
      hide RunStart, RunStop, RunMute, RunGate, RunDelivery, Current;
      if work.Busy? {
        if work.delivered {
          GiveBack();
        } else {
          DeliverChunk();
        }
        return;
      }
      if queue == [] {
        return;
      }
      var task := queue[0];
      queue := queue[1..];
      match task
      case Start(who) => WorkStart(who, ok);
      case Stop(who) => WorkStop(who);
      case Deliver(who, packet) =>
        var valid := Of(who).delivery.Check(packet.token);
        work := Busy(who, packet, valid && recent, false);
      case Mute(value) => WorkMute(value);
      case Tune(threshold) =>
        gate.config := gate.config.(openThreshold := threshold, closeThreshold := threshold - 10.0);
    }

    method WorkStart(who: Who, ok: bool)
      requires Valid()
      modifies this, ptt, vox, ptt.delivery, vox.delivery, gate
      ensures Now() == RunStart(old(Now()), who, ok)
    {
      hide Cleared;
      var t := Of(who);
      if t.running {
        return;
      }
      if ok {
        t.running := true;
        t.delivery.Begin();
        t.session := t.session + 1;
        Call(Began(who));
        if who.Ptt? {
          Call(StartTransmit(Ptt));
        } else {
          gate.Reset();
          gateOpen := false;
        }
        return;
      }
      if who.Ptt? {
        Call(StopTransmit(Ptt));
      } else if gateOpen {
        Call(StopTransmit(Vox));
        gateOpen := false;
      }
      hops := hops + [who];
    }

    method WorkStop(who: Who)
      requires Valid()
      modifies this, ptt, vox, ptt.delivery, vox.delivery, gate
      ensures Now() == RunStop(old(Now()), who)
    {
      hide Cleared;
      var t := Of(who);
      t.delivery.Stop();
      t.running := false;
      if who.Ptt? {
        Call(StopTransmit(Ptt));
      } else {
        if gateOpen {
          Call(StopTransmit(Vox));
          gateOpen := false;
        }
        gate.Reset();
      }
    }

    method WorkMute(value: bool)
      modifies this, gate
      ensures Now() == RunMute(old(Now()), value)
    {
      hide Cleared, Muted;
      gate.SetMuted(value);
      if value && gateOpen {
        Call(StopTransmit(Vox));
        gateOpen := false;
        gate.Reset();
      }
    }

    method DeliverChunk()
      requires Valid() && work.Busy? && !work.delivered
      modifies this, gate
      ensures Now() == RunDelivery(old(Now()))
    {
      hide RunGate;
      var w := work;
      work := w.(delivered := true);
      if w.go {
        if w.who.Ptt? {
          Call(SendPCM(Ptt, w.packet.chunk));
        } else {
          Gated(w.packet.chunk);
        }
      }
    }

    /** The chunk callback of the voice-activated transmitter. */
    method Gated(chunk: Chunk)
      modifies this, gate
      ensures Now() == RunGate(old(Now()), chunk)
    {
      hide Next;
      var action := gate.Process(chunk);
      match action
      case Idle =>
      case Open(chunks) =>
        Call(StartTransmit(Vox));
        gateOpen := true;
        for i := 0 to |chunks|
          modifies this`log
          invariant log == old(log) + [StartTransmit(Vox)] + Sends(Vox, chunks[..i])
        {
          Call(SendPCM(Vox, chunks[i]));
          assert Sends(Vox, chunks[..i + 1]) == Sends(Vox, chunks[..i]) + [SendPCM(Vox, chunks[i])];
        }
        assert chunks[..|chunks|] == chunks;
      case Transmit(c) => Call(SendPCM(Vox, c));
      case Close =>
        Call(StopTransmit(Vox));
        gateOpen := false;
    }

    method GiveBack()
      requires Valid() && work.Busy? && work.delivered
      modifies this`work, ptt.delivery, vox.delivery
      ensures Now() == RunDelivery(old(Now()))
    {
      hide Finished;
      Of(work.who).delivery.Finish(work.packet.duration, work.packet.token);
      work := Free;
    }
  }
}
