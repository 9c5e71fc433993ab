/** The connection store's talk switch as an object. Every method is a block of the main thread up to its calls on the
    transmitters, which `Continue` makes one by one; each is proved to be one move of TalkControl. */
module TalkStore {
  import opened Options
  import opened VoxGate
  import opened CaptureSystem
  import opened CaptureActors
  import opened TalkControl

  class TalkStore {
    const client: Client
    var todo: seq<Turn>
    var mode: Mode
    var connected: bool
    var transmitting: bool
    var muted: bool
    var reports: nat

    ghost function Now(): Store
      reads this, client, client.ptt, client.ptt.delivery, client.vox, client.vox.delivery, client.gate
    {
      Store(client.Now(), todo, mode, connected, transmitting, muted, reports)
    }

    ghost predicate Valid()
      reads this, client, client.ptt, client.ptt.delivery, client.vox, client.vox.delivery, client.gate
    {
      client.Valid() && Kept(Now())
    }

    constructor (config: Config, mode: Mode)
      ensures Valid() && Now() == Begin(config, mode)
    {
      client := new Client(config);
      this.mode := mode;
      todo, connected, transmitting, muted, reports := [], false, false, false, 0;
    }

    // ----- the blocks

    method StartTalking(microphone: bool)
      requires Valid() && todo == []
      modifies this
      ensures Valid() && Now() == Act(old(Now()), Move.StartTalking(microphone))
    {
      hide Orderly, Kept;
      KeptAct(Now(), Move.StartTalking(microphone));
      if !connected || mode != PushToTalk || transmitting || muted {
        return;
      }
      todo := todo + [PressStart(Ptt, microphone)];
      transmitting := client.ptt.flag || microphone;
    }

    method StopTalking()
      requires Valid() && todo == []
      modifies this
      ensures Valid() && Now() == Act(old(Now()), Move.StopTalking)
    {
      hide Orderly, Kept;
      KeptAct(Now(), Move.StopTalking);
      ReleaseKey();
    }

    method ReleaseKey()
      modifies this`todo, this`transmitting
      ensures Now() == Release(old(Now()))
    {
      if mode != PushToTalk || !transmitting {
        return;
      }
      todo := todo + Halt(Ptt);
      transmitting := false;
    }

    method SetMode(mode: Mode)
      requires Valid() && todo == []
      modifies this
      ensures Valid() && Now() == Act(old(Now()), ChooseMode(mode))
    {
      hide Orderly, Kept;
      KeptAct(Now(), ChooseMode(mode));
      this.mode := mode;
      UpdateVoxState();
    }

    method UpdateVoxState()
      modifies this`todo, this`transmitting
      ensures Now() == Update(old(Now()))
    {
      if connected && mode == VoiceActivated {
        todo := todo + Halt(Ptt);
        transmitting := false;
        todo := todo + [PressStart(Vox, true)];
      } else {
        todo := todo + Halt(Vox);
        if mode == PushToTalk {
          transmitting := false;
        }
      }
    }

    method SetMicMuted(value: bool)
      requires Valid() && todo == []
      modifies this
      ensures Valid() && Now() == Act(old(Now()), MuteMicrophone(value))
    {
      hide Orderly, Kept;
      KeptAct(Now(), MuteMicrophone(value));
      muted := value;
      if value {
        ReleaseKey();
      }
      todo := todo + [SetMuted(value)];
    }

    method SetSensitivity(threshold: real)
      requires Valid() && todo == []
      modifies this
      ensures Valid() && Now() == Act(old(Now()), ChooseSensitivity(threshold))
    {
      hide Orderly, Kept;
      KeptAct(Now(), ChooseSensitivity(threshold));
      todo := todo + [SetThreshold(threshold)];
    }

    method InputChanged()
      requires Valid() && todo == []
      modifies this
      ensures Valid() && Now() == Act(old(Now()), ChooseInput)
    {
      hide Orderly, Kept;
      KeptAct(Now(), ChooseInput);
      if client.vox.flag {
        todo := todo + Halt(Vox) + [PressStart(Vox, true)];
      }
    }

    method LoginCompleted()
      requires Valid() && todo == []
      modifies this
      ensures Valid() && Now() == Act(old(Now()), LoggedIn)
    {
      hide Orderly, Kept;
      KeptAct(Now(), LoggedIn);
      connected := true;
      UpdateVoxState();
    }

    method HandleStreamEnd()
      requires Valid() && todo == []
      modifies this
      ensures Valid() && Now() == Act(old(Now()), StreamEnded)
    {
      hide Orderly, Kept;
      KeptAct(Now(), StreamEnded);
      ReleaseKey();
      todo := todo + Halt(Vox);
      transmitting := false;
      connected := false;
    }

    /** The block that shows the gate's level. */
    method ShowLevel(open: bool)
      requires Valid() && todo == []
      modifies this
      ensures Valid() && Now() == Act(old(Now()), GateLevel(open))
    {
      hide Orderly, Kept;
      KeptAct(Now(), GateLevel(open));
      if mode == VoiceActivated {
        transmitting := open && client.vox.flag && connected && !muted;
      }
    }

    method ShowError()
      requires Valid() && todo == [] && reports > 0
      modifies this
      ensures Valid() && Now() == Act(old(Now()), ErrorReport)
    {
      hide Orderly, Kept;
      KeptAct(Now(), ErrorReport);
      transmitting := false;
      reports := reports - 1;
    }

    method CaptureFailed()
      requires Valid() && todo == [] && client.hops != []
      modifies this`reports, client`hops, client.ptt`flag, client.vox`flag
      ensures Valid() && Now() == Act(old(Now()), ErrorBlock)
    {
      hide Orderly, Kept, Step;
      KeptAct(Now(), ErrorBlock);
      IdleHere();
      client.ErrorHop();
      reports := reports + 1;
    }

    lemma IdleHere()
      requires Valid() && todo == []
      ensures client.stopping == None
    {
      KeptIdle(Now());
    }

    // ----- the calls of a block

    /** The next call on a transmitter. */
    method Continue()
      requires Valid() && todo != []
      modifies this`todo, client, client.ptt, client.ptt.delivery, client.vox, client.vox.delivery
      ensures Valid() && Now() == Act(old(Now()), Move.Continue)
    {
      hide Kept, Step, Block, Orderly;
      KeptAct(Now(), Move.Continue);
      NextCall(Now());
      Call(todo[0]);
      todo := todo[1..];
    }

    method Call(turn: Turn)
      requires client.Valid() && (turn.PressStart? || turn.PressStop? ==> client.stopping == None)
      requires turn.PressStart? || turn.PressStop? || turn.QueueStop? || turn.SetMuted? || turn.SetThreshold?
      modifies client, client.ptt, client.ptt.delivery, client.vox, client.vox.delivery
      ensures client.Now() == Step(old(client.Now()), turn)
    {
      hide Step;
      match turn
      case PressStart(who, microphone) => client.Start(who, microphone);
      case PressStop(who) => client.Stop(who);
      case QueueStop => FinishStop();
      case SetMuted(value) => client.Mute(value);
      case SetThreshold(threshold) => client.Tune(threshold);
    }

    method FinishStop()
      requires client.Valid()
      modifies client`queue, client`stopping, client.ptt`flag, client.vox`flag
      ensures client.Now() == Step(old(client.Now()), Turn.QueueStop)
    {
      if client.stopping.Some? {
        client.QueueStop();
      }
    }
  }

  lemma NextCall(st: Store)
    requires Kept(st) && st.todo != []
    ensures var t := st.todo[0]; (
              && (t.PressStart? || t.PressStop? || t.QueueStop? || t.SetMuted? || t.SetThreshold?)
              && (t.PressStart? || t.PressStop? ==> st.sys.stopping == None))
  {
  }
}
