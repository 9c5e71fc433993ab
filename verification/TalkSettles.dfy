/** What was chosen in the store takes effect: the mute switch, the sensitivity, voice activation and the talk key. */
module TalkSettles {
  import opened Options
  import opened VoxGate
  import opened CaptureSystem
  import opened CaptureSettles
  import opened TalkControl

  // ----- mute and sensitivity

  /** The last mute that was chosen; a choice inside another block of the main thread cannot happen. */
  function ChosenMute(config: Config, mode: Mode, moves: seq<Move>): bool {
    if moves == [] then false
    else
      var n := |moves| - 1;
      if moves[n].MuteMicrophone? && After(config, mode, moves[..n]).todo == [] then moves[n].value
      else ChosenMute(config, mode, moves[..n])
  }

  /** The last sensitivity that was chosen. */
  function ChosenThreshold(config: Config, mode: Mode, moves: seq<Move>): real {
    if moves == [] then config.openThreshold
    else
      var n := |moves| - 1;
      if moves[n].ChooseSensitivity? && After(config, mode, moves[..n]).todo == [] then moves[n].threshold
      else ChosenThreshold(config, mode, moves[..n])
  }

  /** What the rest of a block will make of the two. */
  function Later(todo: seq<Turn>, now: (bool, real)): (bool, real) {
    if todo == [] then now
    else
      match todo[|todo| - 1]
      case SetMuted(value) => (value, Later(todo[..|todo| - 1], now).1)
      case SetThreshold(threshold) => (Later(todo[..|todo| - 1], now).0, threshold)
      case _ => Later(todo[..|todo| - 1], now)
  }

  lemma LaterSnoc(todo: seq<Turn>, turn: Turn, now: (bool, real))
    ensures Later(todo + [turn], now)
            == (if turn.SetMuted? then turn.value else Later(todo, now).0,
                if turn.SetThreshold? then turn.threshold else Later(todo, now).1)
  {
    assert (todo + [turn])[..|todo|] == todo;
  }

  lemma LaterHalt(todo: seq<Turn>, who: Who, now: (bool, real))
    ensures Later(todo + Halt(who), now) == Later(todo, now)
  {
    hide Later;
    LaterSnoc(todo, PressStop(who), now);
    LaterSnoc(todo + [PressStop(who)], QueueStop, now);
    assert todo + Halt(who) == todo + [PressStop(who)] + [QueueStop];
  }

  lemma {:induction false} LaterFirst(todo: seq<Turn>, now: (bool, real))
    requires todo != []
    ensures Later(todo, now)
            == Later(todo[1..], (if todo[0].SetMuted? then todo[0].value else now.0,
                                 if todo[0].SetThreshold? then todo[0].threshold else now.1))
    decreases |todo|
  {
    var n := |todo| - 1;
    if n > 0 {
      LaterFirst(todo[..n], now);
      assert todo[..n][1..] == todo[1..][..n - 1];
    }
  }

  /** The mute switch and the threshold once block and queue are done. */
  function Outcome(st: Store): (bool, real) {
    Later(st.todo, Settling(st.sys))
  }

  lemma OutcomeAct(st: Store, m: Move)
    ensures Outcome(Act(st, m))
            == (if m.MuteMicrophone? && st.todo == [] then m.value else Outcome(st).0,
                if m.ChooseSensitivity? && st.todo == [] then m.threshold else Outcome(st).1)
    ensures Act(st, m).muted == if m.MuteMicrophone? && st.todo == [] then m.value else st.muted
  {
    hide Later, Settling, Step;
    match m
    case Continue =>
      if st.todo != [] {
        SettlingStep(st.sys, st.todo[0]);
        LaterFirst(st.todo, Settling(st.sys));
      }
    case Elsewhere(turn) => SettlingStep(st.sys, turn);
    case _ =>
      if st.todo == [] {
        OutcomeBlock(st, m);
      }
  }

  lemma OutcomeBlock(st: Store, m: Move)
    requires st.todo == [] && !m.Continue? && !m.Elsewhere?
    ensures Outcome(Block(st, m)) == (if m.MuteMicrophone? then m.value else Outcome(st).0,
                                      if m.ChooseSensitivity? then m.threshold else Outcome(st).1)
    ensures Block(st, m).muted == if m.MuteMicrophone? then m.value else st.muted
  {
    hide Later, Settling, Step, Halt;
    var now := Settling(st.sys);
    SettlingStep(st.sys, Hop);
    LaterHalt(st.todo, Ptt, now);
    LaterHalt(st.todo, Vox, now);
    LaterSnoc(st.todo + Halt(Ptt), PressStart(Vox, true), now);
    LaterSnoc(st.todo + Halt(Vox), PressStart(Vox, true), now);
    LaterHalt(st.todo + Halt(Ptt), Vox, now);
    match m
    case StartTalking(microphone) => LaterSnoc(st.todo, PressStart(Ptt, microphone), now);
    case MuteMicrophone(value) =>
      LaterSnoc(st.todo, SetMuted(value), now);
      LaterSnoc(st.todo + Halt(Ptt), SetMuted(value), now);
    case ChooseSensitivity(threshold) => LaterSnoc(st.todo, SetThreshold(threshold), now);
    case _ =>
  }

  lemma {:induction false} AlwaysOutcome(config: Config, mode: Mode, moves: seq<Move>)
    ensures var st := After(config, mode, moves); (
              && Outcome(st) == (ChosenMute(config, mode, moves), ChosenThreshold(config, mode, moves))
              && st.muted == ChosenMute(config, mode, moves))
  {
    hide Act, Outcome;
    if moves == [] {
      BeginOutcome(config, mode);
    } else {
      var n := |moves| - 1;
      AlwaysOutcome(config, mode, moves[..n]);
      OutcomeAct(After(config, mode, moves[..n]), moves[n]);
    }
  }

  lemma BeginOutcome(config: Config, mode: Mode)
    ensures Outcome(Begin(config, mode)) == (false, config.openThreshold)
  {
    NothingSettling(config);
  }

  // ----- voice activation

  /** Whether the voice-activated transmitter's flag is up after the rest of a block; `stopping` says that its stop has
      begun. */
  function VoxAfter(todo: seq<Turn>, vox: bool, stopping: bool): bool {
    if todo == [] then vox
    else
      match todo[0]
      case PressStart(who, _) => VoxAfter(todo[1..], vox || who.Vox?, false)
      case PressStop(who) => VoxAfter(todo[1..], vox, stopping || who.Vox?)
      case QueueStop => VoxAfter(todo[1..], vox && !stopping, false)
      case _ => VoxAfter(todo[1..], vox, stopping)
  }

  /** In voice-activated mode and connected, the transmitter is up or about to be. */
  predicate Voiced(st: Store) {
    st.connected && st.mode == VoiceActivated ==>
      VoxAfter(st.todo, st.sys.vox.flag, st.sys.stopping == Some(Vox))
  }

  /** The move is the block of an error of voice activation. */
  predicate VoxFails(st: Store, m: Move) {
    m.ErrorBlock? && st.todo == [] && st.sys.hops != [] && st.sys.hops[0] == Vox
  }

  lemma VoicedAct(st: Store, m: Move)
    requires Kept(st) && Voiced(st) && !VoxFails(st, m)
    ensures Voiced(Act(st, m))
  {
    hide Orderly, Step, VoxAfter, Block;
    match m
    case Continue =>
      if st.todo != [] {
        VoicedContinue(st);
      }
    case Elsewhere(turn) =>
      if OffMain(turn) {
        ElsewhereMain(st.sys, turn);
      }
    case _ =>
      if st.todo == [] {
        VoicedBlock(st, m);
      }
  }

  lemma VoicedContinue(st: Store)
    requires Kept(st) && Voiced(st) && st.todo != []
    ensures Voiced(Act(st, Continue))
  {
    hide Step, DoPressStart, DoPressStop, DoQueueStop;
    MainTurn(st.sys, st.todo[0]);
    NotStopping(st.todo[1..], true);
  }

  /** A stop that has begun makes no difference once the flag is down. */
  lemma {:induction false} NotStopping(todo: seq<Turn>, stopping: bool)
    ensures VoxAfter(todo, false, stopping) == VoxAfter(todo, false, false)
    decreases |todo|
  {
    if todo != [] {
      NotStopping(todo[1..], true);
      NotStopping(todo[1..], stopping);
    }
  }

  lemma VoicedBlock(st: Store, m: Move)
    requires Kept(st) && Voiced(st) && st.todo == [] && !m.Continue? && !m.Elsewhere? && !VoxFails(st, m)
    ensures Voiced(Block(st, m))
  {
    hide VoxAfter, Step;
    var vox := st.sys.vox.flag;
    Rests(vox);
    assert st.sys.stopping == None;
    match m
    case ErrorBlock => VoicedFail(st);
    case ChooseMode(mode) => Restarts(st.todo + Halt(Ptt) + [PressStart(Vox, true)], Ptt, vox);
    case LoggedIn => Restarts(st.todo + Halt(Ptt) + [PressStart(Vox, true)], Ptt, vox);
    case ChooseInput => Restarts(st.todo + Halt(Vox) + [PressStart(Vox, true)], Vox, vox);
    case MuteMicrophone(value) => OneSetting(st.todo + [SetMuted(value)], SetMuted(value), vox);
    case ChooseSensitivity(threshold) => OneSetting(st.todo + [SetThreshold(threshold)], SetThreshold(threshold), vox);
    case _ =>
  }

  lemma VoicedFail(st: Store)
    requires Kept(st) && Voiced(st) && st.todo == [] && !VoxFails(st, ErrorBlock)
    ensures Voiced(Fail(st))
  {
    hide VoxAfter;
  }

  lemma Rests(vox: bool)
    ensures VoxAfter([], vox, false) == vox
  {
  }

  lemma Restarts(todo: seq<Turn>, who: Who, vox: bool)
    requires todo == [PressStop(who), QueueStop, PressStart(Vox, true)]
    ensures VoxAfter(todo, vox, false)
  {
    assert todo[1..] == [QueueStop, PressStart(Vox, true)] && todo[1..][1..] == [PressStart(Vox, true)];
    assert todo[1..][1..][1..] == [];
    var third := todo[1..][1..];
    assert VoxAfter(third, true, false) && VoxAfter(third, false, false);
  }

  lemma OneSetting(todo: seq<Turn>, turn: Turn, vox: bool)
    requires todo == [turn] && (turn.SetMuted? || turn.SetThreshold?)
    ensures VoxAfter(todo, vox, false) == vox
  {
    assert todo[1..] == [];
  }

  ghost predicate NoVoxError(config: Config, mode: Mode, moves: seq<Move>) {
    forall k :: 0 <= k < |moves| ==> !VoxFails(After(config, mode, moves[..k]), moves[k])
  }

  lemma {:induction false} AlwaysVoiced(config: Config, mode: Mode, moves: seq<Move>)
    requires NoVoxError(config, mode, moves)
    ensures Voiced(After(config, mode, moves))
  {
    hide Act, Kept, Voiced, VoxFails, Begin;
    if moves == [] {
      BeginVoiced(config, mode);
    } else {
      var n := |moves| - 1;
      assert NoVoxError(config, mode, moves[..n]) by {
        forall k | 0 <= k < n
          ensures !VoxFails(After(config, mode, moves[..n][..k]), moves[..n][k])
        {
          assert moves[..n][..k] == moves[..k];
        }
      }
      AlwaysVoiced(config, mode, moves[..n]);
      AlwaysKept(config, mode, moves[..n]);
      VoicedAct(After(config, mode, moves[..n]), moves[n]);
    }
  }

  lemma BeginVoiced(config: Config, mode: Mode)
    ensures Voiced(Begin(config, mode))
  {
  }

  // ----- every run of the store

  /** Whenever no block is under way and the worker's queue is empty, the gate is muted, and opens at the level, as was
      last chosen. */
  lemma ChoicesTakeEffect(config: Config, mode: Mode, moves: seq<Move>)
    requires After(config, mode, moves).todo == [] && After(config, mode, moves).sys.queue == []
    ensures var g := After(config, mode, moves).sys.gate; (
              && g.muted == ChosenMute(config, mode, moves)
              && g.config.openThreshold == ChosenThreshold(config, mode, moves))
  {
    hide After, ChosenMute, ChosenThreshold;
    AlwaysOutcome(config, mode, moves);
  }

  /** In a run without errors of voice activation, whenever the store is connected in its mode and no block is under
      way, it is up; and once the queue is empty its capture runs, unless an error is on its way. */
  lemma VoiceIsOn(config: Config, mode: Mode, moves: seq<Move>)
    requires NoVoxError(config, mode, moves)
    requires var st := After(config, mode, moves); st.todo == [] && st.connected && st.mode == VoiceActivated
    ensures var s := After(config, mode, moves).sys; (
              && s.vox.flag
              && (s.queue == [] ==> s.vox.running || Vox in s.hops))
  {
    hide After, NoVoxError;
    var st := After(config, mode, moves);
    AlwaysVoiced(config, mode, moves);
    AlwaysKept(config, mode, moves);
    Rests(st.sys.vox.flag);
    TraceRuns(config, mode, moves);
    AlwaysPromised(config, Trace(config, mode, moves), Vox);
  }

  /** Pressing the talk key while connected, in its mode, not muted and not talking, with a microphone: the transmitter
      is up at the next turn, and the indicator is lit. */
  lemma KeyStarts(config: Config, mode: Mode, moves: seq<Move>)
    requires var st := After(config, mode, moves);
             st.todo == [] && st.connected && st.mode == PushToTalk && !st.muted && !st.transmitting
    ensures var st := Act(Act(After(config, mode, moves), StartTalking(true)), Continue); (
              st.todo == [] && st.transmitting && st.sys.ptt.flag)
  {
    hide After;
    AlwaysKept(config, mode, moves);
    var st := After(config, mode, moves);
    assert st.sys.stopping == None;
    assert Act(st, StartTalking(true)).todo == [PressStart(Ptt, true)];
  }
}
