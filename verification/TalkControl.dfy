/** How the connection store switches between the two transmitters.

    The store acts in blocks of the main thread. Inside a block the calls on the transmitters are turns of
    CaptureSystem; taps and worker may act between them, but no other block of the main thread. */
module TalkControl {
  import opened Options
  import opened VoxGate
  import opened CaptureSystem
  import opened CaptureSwitch

  datatype Mode = PushToTalk | VoiceActivated

  /** `todo` is what the running block still has to do; `transmitting` is the talk indicator, which is also what the
      release of the talk key looks at; `reports` counts blocks that an error block has left behind. */
  datatype Store = Store(
    sys: State,
    todo: seq<Turn>,
    mode: Mode,
    connected: bool,
    transmitting: bool,
    muted: bool,
    reports: nat)

  datatype Move =
    | StartTalking(microphone: bool)
    | StopTalking
    | ChooseMode(mode: Mode)
    | MuteMicrophone(value: bool)
    | ChooseSensitivity(threshold: real)
    | ChooseInput
    | LoggedIn
    | StreamEnded
    | GateLevel(open: bool)
    | ErrorBlock
    | ErrorReport
    | Continue
    | Elsewhere(turn: Turn)

  function Begin(config: Config, mode: Mode): Store {
    Store(Initial(config), [], mode, false, false, false, 0)
  }

  /** The calls of a transmitter's `stop`. */
  function Halt(who: Who): seq<Turn> {
    [PressStop(who), QueueStop]
  }

  function Talk(st: Store, microphone: bool): Store {
    if !st.connected || st.mode != PushToTalk || st.transmitting || st.muted then st
    else st.(todo := st.todo + [PressStart(Ptt, microphone)], transmitting := st.sys.ptt.flag || microphone)
  }

  function Release(st: Store): Store {
    if st.mode != PushToTalk || !st.transmitting then st
    else st.(todo := st.todo + Halt(Ptt), transmitting := false)
  }

  /** `updateVoxState`. */
  function Update(st: Store): Store {
    if st.connected && st.mode == VoiceActivated
    then st.(todo := st.todo + Halt(Ptt) + [PressStart(Vox, true)], transmitting := false)
    else st.(todo := st.todo + Halt(Vox), transmitting := st.transmitting && st.mode != PushToTalk)
  }

  function Mute(st: Store, value: bool): Store {
    var st := st.(muted := value);
    var st := if value then Release(st) else st;
    st.(todo := st.todo + [SetMuted(value)])
  }

  /** A new input device takes effect by a restart. */
  function Restart(st: Store): Store {
    if !st.sys.vox.flag then st else st.(todo := st.todo + Halt(Vox) + [PressStart(Vox, true)])
  }

  /** `handleStreamEnd`. */
  function End(st: Store): Store {
    var st := Release(st);
    st.(todo := st.todo + Halt(Vox), transmitting := false, connected := false)
  }

  function Level(st: Store, open: bool): Store {
    if st.mode != VoiceActivated then st
    else st.(transmitting := open && st.sys.vox.flag && st.connected && !st.muted)
  }

  /** The block that a capture error left for the transmitter's flag; it leaves another one for the store. */
  function Fail(st: Store): Store {
    if st.sys.hops == [] then st else st.(sys := Step(st.sys, Hop), reports := st.reports + 1)
  }

  function Report(st: Store): Store {
    if st.reports == 0 then st else st.(transmitting := false, reports := st.reports - 1)
  }

  /** A block of the main thread up to its calls on the transmitters. */
  function Block(st: Store, m: Move): Store {
    match m
    case StartTalking(microphone) => Talk(st, microphone)
    case StopTalking => Release(st)
    case ChooseMode(mode) => Update(st.(mode := mode))
    case MuteMicrophone(value) => Mute(st, value)
    case ChooseSensitivity(threshold) => st.(todo := st.todo + [SetThreshold(threshold)])
    case ChooseInput => Restart(st)
    case LoggedIn => Update(st.(connected := true))
    case StreamEnded => End(st)
    case GateLevel(open) => Level(st, open)
    case ErrorBlock => Fail(st)
    case ErrorReport => Report(st)
    case Continue => st
    case Elsewhere(_) => st
  }

  predicate OffMain(t: Turn) {
    t.Tap? || t.TapEnqueue? || t.Worker?
  }

  /** One move; a block begins only when the last one is done. */
  function Act(st: Store, m: Move): Store {
    if m.Continue? then
      if st.todo == [] then st else st.(sys := Step(st.sys, st.todo[0]), todo := st.todo[1..])
    else if m.Elsewhere? then
      if OffMain(m.turn) then st.(sys := Step(st.sys, m.turn)) else st
    else if st.todo == [] then Block(st, m)
    else st
  }

  /** The turn of the transmitters that a move takes, if it takes one. */
  function TurnOf(st: Store, m: Move): Option<Turn> {
    match m
    case Continue => if st.todo == [] then None else Some(st.todo[0])
    case Elsewhere(t) => if OffMain(t) then Some(t) else None
    case ErrorBlock => if st.todo == [] && st.sys.hops != [] then Some(Hop) else None
    case _ => None
  }

  function After(config: Config, mode: Mode, moves: seq<Move>): Store {
    if moves == [] then Begin(config, mode)
    else Act(After(config, mode, moves[..|moves| - 1]), moves[|moves| - 1])
  }

  function Trace(config: Config, mode: Mode, moves: seq<Move>): seq<Turn> {
    if moves == [] then []
    else
      var before := moves[..|moves| - 1];
      var turn := TurnOf(After(config, mode, before), moves[|moves| - 1]);
      Trace(config, mode, before) + (if turn.Some? then [turn.value] else [])
  }

  lemma ActIsTurn(st: Store, m: Move)
    ensures Act(st, m).sys == if TurnOf(st, m).Some? then Step(st.sys, TurnOf(st, m).value) else st.sys
  {
    hide Step;
  }

  lemma {:induction false} TraceRuns(config: Config, mode: Mode, moves: seq<Move>)
    ensures After(config, mode, moves).sys == Run(config, Trace(config, mode, moves))
  {
    hide Act, TurnOf, Step;
    if moves != [] {
      var before := moves[..|moves| - 1];
      TraceRuns(config, mode, before);
      ActIsTurn(After(config, mode, before), moves[|moves| - 1]);
      var turn := TurnOf(After(config, mode, before), moves[|moves| - 1]);
      if turn.Some? {
        RunSnoc(config, Trace(config, mode, before), turn.value);
      } else {
        assert Trace(config, mode, before) + [] == Trace(config, mode, before);
      }
    }
  }

  // ----- the guards keep the transmitters apart

  /** What the rest of a block finds and leaves: it starts a transmitter only while the other one's flag is down, and in
      push-to-talk mode it leaves the voice-activated one down. */
  predicate Orderly(todo: seq<Turn>, ptt: bool, vox: bool, stopping: Option<Who>, mode: Mode) {
    if todo == [] then stopping == None && !(ptt && vox) && (mode == PushToTalk ==> !vox)
    else
      match todo[0]
      case PressStart(who, microphone) =>
        && stopping == None && !(if who.Ptt? then vox else ptt)
        && Orderly(todo[1..], ptt || (who.Ptt? && microphone), vox || who.Vox?, None, mode)
      case PressStop(who) =>
        && stopping == None
        && Orderly(todo[1..], ptt, vox, if (if who.Ptt? then ptt else vox) then Some(who) else None, mode)
      case QueueStop => Orderly(todo[1..], ptt && stopping != Some(Ptt), vox && stopping != Some(Vox), None, mode)
      case SetMuted(_) => Orderly(todo[1..], ptt, vox, stopping, mode)
      case SetThreshold(_) => Orderly(todo[1..], ptt, vox, stopping, mode)
      case _ => false
  }

  predicate Kept(st: Store) {
    Orderly(st.todo, st.sys.ptt.flag, st.sys.vox.flag, st.sys.stopping, st.mode)
  }

  predicate SameMain(a: State, b: State) {
    a.ptt.flag == b.ptt.flag && a.vox.flag == b.vox.flag && a.stopping == b.stopping
  }

  lemma ElsewhereMain(s: State, t: Turn)
    requires OffMain(t)
    ensures SameMain(s, Step(s, t))
  {
    hide DoWorker;
    if t.Worker? {
      WorkerWillRun(s, t.ok, t.recent, Ptt);
      WorkerWillRun(s, t.ok, t.recent, Vox);
      WorkerMain(s, t.ok, t.recent);
    }
  }

  lemma KeptAct(st: Store, m: Move)
    requires Kept(st)
    ensures Kept(Act(st, m))
    ensures TurnOf(st, m).Some? ==> Exclusive(st.sys, TurnOf(st, m).value)
  {
    hide Orderly, DoWorker, DoTap, DoTapEnqueue;
    match m
    case Continue =>
      if st.todo != [] {
        KeptContinue(st);
      }
    case Elsewhere(t) =>
      if OffMain(t) {
        ElsewhereMain(st.sys, t);
      }
    case _ =>
      if st.todo == [] {
        KeptBlock(st, m);
      }
  }

  lemma KeptContinue(st: Store)
    requires Kept(st) && st.todo != []
    ensures Kept(Act(st, Continue)) && Exclusive(st.sys, st.todo[0])
  {
    hide DoPressStart, DoPressStop, DoQueueStop, DoHop, DoTap, DoTapEnqueue, DoWorker;
    MainTurn(st.sys, st.todo[0]);
  }

  /** What the turns of a block do to the flags. */
  lemma MainTurn(s: State, t: Turn)
    requires t.PressStart? || t.PressStop? ==> s.stopping == None
    ensures var r := Step(s, t);
            match t
            case PressStart(who, microphone) =>
              && r.ptt.flag == (s.ptt.flag || (who.Ptt? && microphone))
              && r.vox.flag == (s.vox.flag || who.Vox?) && r.stopping == None
            case PressStop(who) =>
              && r.ptt.flag == s.ptt.flag && r.vox.flag == s.vox.flag
              && r.stopping == if s.Of(who).flag then Some(who) else None
            case QueueStop =>
              && r.ptt.flag == (s.ptt.flag && s.stopping != Some(Ptt))
              && r.vox.flag == (s.vox.flag && s.stopping != Some(Vox)) && r.stopping == None
            case SetMuted(_) => SameMain(s, r)
            case SetThreshold(_) => SameMain(s, r)
            case _ => true
  {
    hide DoHop, DoTap, DoTapEnqueue, DoWorker;
  }

  lemma OrderlyHalt(who: Who, rest: seq<Turn>, ptt: bool, vox: bool, mode: Mode)
    ensures Orderly(Halt(who) + rest, ptt, vox, None, mode)
        <==> Orderly(rest, ptt && who.Vox?, vox && who.Ptt?, None, mode)
  {
    assert (Halt(who) + rest)[1..] == [QueueStop] + rest;
    assert ([QueueStop] + rest)[1..] == rest;
    var stopping := if (if who.Ptt? then ptt else vox) then Some(who) else None;
    assert (ptt && stopping != Some(Ptt)) == (ptt && who.Vox?);
    assert (vox && stopping != Some(Vox)) == (vox && who.Ptt?);
  }

  lemma OrderlyOne(turn: Turn, ptt: bool, vox: bool, mode: Mode)
    requires turn.PressStart? || turn.SetMuted? || turn.SetThreshold?
    ensures Orderly([turn], ptt, vox, None, mode)
        <==> (if turn.PressStart?
              then !(if turn.who.Ptt? then vox else ptt)
                   && Orderly([], ptt || (turn.who.Ptt? && turn.microphone), vox || turn.who.Vox?, None, mode)
              else Orderly([], ptt, vox, None, mode))
  {
    assert [turn][1..] == [];
  }

  lemma OrderlyDone(ptt: bool, vox: bool, stopping: Option<Who>, mode: Mode)
    ensures Orderly([], ptt, vox, stopping, mode)
        <==> stopping == None && !(ptt && vox) && (mode == PushToTalk ==> !vox)
  {
  }

  lemma KeptIdle(st: Store)
    requires Kept(st) && st.todo == []
    ensures st.sys.stopping == None && !(st.sys.ptt.flag && st.sys.vox.flag)
    ensures st.mode == PushToTalk ==> !st.sys.vox.flag
  {
  }

  lemma KeptMute(st: Store, value: bool)
    requires Kept(st) && st.todo == []
    ensures Kept(Mute(st, value))
  {
    hide Orderly, Halt;
    var ptt, vox := st.sys.ptt.flag, st.sys.vox.flag;
    KeptIdle(st);
    assert [] + Halt(Ptt) == Halt(Ptt) && [] + [SetMuted(value)] == [SetMuted(value)];
    OrderlyHalt(Ptt, [SetMuted(value)], ptt, vox, st.mode);
    OrderlyOne(SetMuted(value), ptt, vox, st.mode);
    OrderlyOne(SetMuted(value), false, vox, st.mode);
    OrderlyDone(ptt, vox, None, st.mode);
    OrderlyDone(false, vox, None, st.mode);
  }

  lemma KeptEnd(st: Store)
    requires Kept(st) && st.todo == []
    ensures Kept(End(st))
  {
    hide Orderly, Halt;
    var ptt, vox := st.sys.ptt.flag, st.sys.vox.flag;
    KeptIdle(st);
    assert [] + Halt(Ptt) == Halt(Ptt) && [] + Halt(Vox) == Halt(Vox) + [] == Halt(Vox);
    OrderlyHalt(Ptt, Halt(Vox), ptt, vox, st.mode);
    OrderlyHalt(Vox, [], ptt, vox, st.mode);
    OrderlyHalt(Vox, [], false, vox, st.mode);
    OrderlyDone(ptt, false, None, st.mode);
    OrderlyDone(false, false, None, st.mode);
  }

  /** Every block of the store, from its beginning. */
  lemma KeptBlock(st: Store, m: Move)
    requires Kept(st) && st.todo == [] && !m.Continue? && !m.Elsewhere?
    ensures Kept(Act(st, m))
  {
    hide Step, Orderly, Halt, Mute, End, Update;
    var ptt, vox := st.sys.ptt.flag, st.sys.vox.flag;
    KeptIdle(st);
    OrderlyDone(ptt, vox, None, st.mode);
    OrderlyDone(false, vox, None, st.mode);
    OrderlyDone(ptt, false, None, st.mode);
    assert [] + Halt(Ptt) == Halt(Ptt) + [] == Halt(Ptt) && [] + Halt(Vox) == Halt(Vox) + [] == Halt(Vox);
    match m
    case StartTalking(microphone) =>
      assert [] + [PressStart(Ptt, microphone)] == [PressStart(Ptt, microphone)];
      OrderlyOne(PressStart(Ptt, microphone), ptt, vox, st.mode);
      OrderlyDone(ptt || microphone, vox, None, st.mode);
    case StopTalking => OrderlyHalt(Ptt, [], ptt, vox, st.mode);
    case ChooseMode(mode) => KeptUpdate(st.(mode := mode));
    case MuteMicrophone(value) => KeptMute(st, value);
    case ChooseSensitivity(threshold) =>
      assert [] + [SetThreshold(threshold)] == [SetThreshold(threshold)];
      OrderlyOne(SetThreshold(threshold), ptt, vox, st.mode);
    case ChooseInput =>
      OrderlyHalt(Vox, [PressStart(Vox, true)], ptt, vox, st.mode);
      OrderlyOne(PressStart(Vox, true), ptt, false, st.mode);
      OrderlyDone(ptt, true, None, st.mode);
    case LoggedIn => KeptUpdate(st.(connected := true));
    case StreamEnded => KeptEnd(st);
    case GateLevel(open) =>
    case ErrorBlock =>
      if st.sys.hops != [] {
        KeptHop(st);
      }
    case ErrorReport =>
  }

  lemma KeptHop(st: Store)
    requires Kept(st) && st.todo == [] && st.sys.hops != []
    ensures Kept(st.(sys := Step(st.sys, Hop), reports := st.reports + 1))
  {
  }

  /** Whatever the mode was before. */
  lemma KeptUpdate(st: Store)
    requires st.todo == [] && st.sys.stopping == None && !(st.sys.ptt.flag && st.sys.vox.flag)
    ensures Kept(Update(st))
  {
    hide Orderly, Halt;
    var ptt, vox := st.sys.ptt.flag, st.sys.vox.flag;
    OrderlyDone(ptt, false, None, st.mode);
    OrderlyDone(false, true, None, st.mode);
    assert [] + Halt(Vox) == Halt(Vox) && Halt(Vox) + [] == Halt(Vox);
    assert [] + Halt(Ptt) + [PressStart(Vox, true)] == Halt(Ptt) + [PressStart(Vox, true)];
    OrderlyHalt(Vox, [], ptt, vox, st.mode);
    OrderlyHalt(Ptt, [PressStart(Vox, true)], ptt, vox, st.mode);
    OrderlyOne(PressStart(Vox, true), false, vox, st.mode);
  }

  lemma {:induction false} AlwaysKept(config: Config, mode: Mode, moves: seq<Move>)
    ensures Kept(After(config, mode, moves))
  {
    hide Act, Kept, Begin;
    if moves == [] {
      BeginKept(config, mode);
    } else {
      var before := moves[..|moves| - 1];
      AlwaysKept(config, mode, before);
      KeptAct(After(config, mode, before), moves[|moves| - 1]);
    }
  }

  lemma BeginKept(config: Config, mode: Mode)
    ensures Kept(Begin(config, mode))
  {
  }

  /** The store's own guards are the switching discipline: in every run of the store a transmitter is started only while
      the other one's flag is down. */
  lemma {:induction false} StoreIsDisciplined(config: Config, mode: Mode, moves: seq<Move>)
    requires NoStaleHop(config, Trace(config, mode, moves))
    ensures Disciplined(config, Trace(config, mode, moves))
  {
    hide Act, Kept, Exclusive, StaleHop, Run, TurnOf;
    if moves != [] {
      var before := moves[..|moves| - 1];
      var st, m := After(config, mode, before), moves[|moves| - 1];
      var trace := Trace(config, mode, before);
      if TurnOf(st, m).Some? {
        assert Trace(config, mode, moves)[..|trace|] == trace;
        StoreIsDisciplined(config, mode, before);
        AlwaysKept(config, mode, before);
        KeptAct(st, m);
        TraceRuns(config, mode, before);
      } else {
        assert Trace(config, mode, moves) == trace;
        StoreIsDisciplined(config, mode, before);
      }
    }
  }

  /** So switching modes, talking, muting, changing the device and losing the connection, in any order and with any
      interleaving of taps and worker, keeps the calls on the shared client bracketed as if there were one transmitter,
      unless an error block is overtaken. */
  lemma StoreIsSafe(config: Config, mode: Mode, moves: seq<Move>)
    requires NoStaleHop(config, Trace(config, mode, moves))
    ensures Shared(After(config, mode, moves).sys.log)
  {
    StoreIsDisciplined(config, mode, moves);
    SwitchingIsSafe(config, Trace(config, mode, moves));
    TraceRuns(config, mode, moves);
  }

  // ----- the talk key

  /** Whether push-to-talk's flag is up after the rest of a block. */
  function PttAfter(todo: seq<Turn>, ptt: bool, stopping: Option<Who>): bool {
    if todo == [] then ptt
    else
      match todo[0]
      case PressStart(who, microphone) => PttAfter(todo[1..], ptt || (who.Ptt? && microphone), None)
      case PressStop(who) => PttAfter(todo[1..], ptt, if who.Ptt? && ptt then Some(Ptt) else None)
      case QueueStop => PttAfter(todo[1..], ptt && stopping != Some(Ptt), None)
      case _ => PttAfter(todo[1..], ptt, stopping)
  }

  function Talking(st: Store): bool {
    PttAfter(st.todo, st.sys.ptt.flag, if st.sys.stopping == Some(Ptt) then Some(Ptt) else None)
  }

  /** While push-to-talk is on, the indicator shows it and the key can release it. */
  predicate Heard(st: Store) {
    Talking(st) ==> st.transmitting && st.mode == PushToTalk && st.connected && !st.muted
  }

  /** The blocks that put the indicator out without a stop: a late error report, and choosing push-to-talk, or logging
      in, once more. */
  predicate Forgets(st: Store, m: Move) {
    && st.todo == [] && st.sys.ptt.flag
    && ((m.ErrorReport? && st.reports > 0) || m == ChooseMode(PushToTalk) || (m.LoggedIn? && st.mode == PushToTalk))
  }

  lemma PttHalt(who: Who, rest: seq<Turn>, ptt: bool)
    ensures PttAfter(Halt(who) + rest, ptt, None) == PttAfter(rest, ptt && who.Vox?, None)
  {
    assert (Halt(who) + rest)[1..] == [QueueStop] + rest;
    assert ([QueueStop] + rest)[1..] == rest;
  }

  lemma NothingLeft(ptt: bool)
    ensures PttAfter([], ptt, None) == ptt
  {
  }

  lemma PttOne(turn: Turn, ptt: bool)
    requires turn.PressStart? || turn.SetMuted? || turn.SetThreshold?
    ensures PttAfter([turn], ptt, None) == (ptt || (turn.PressStart? && turn.who.Ptt? && turn.microphone))
  {
    assert [turn][1..] == [];
  }

  lemma TalkingContinue(st: Store)
    requires Kept(st) && st.todo != []
    ensures Talking(Act(st, Continue)) == Talking(st)
  {
    hide DoPressStart, DoPressStop, DoQueueStop, DoHop, DoTap, DoTapEnqueue, DoWorker;
    MainTurn(st.sys, st.todo[0]);
  }

  /** The key stays in control under every move but those that forget, and those always take it away. */
  lemma HeardAct(st: Store, m: Move)
    requires Kept(st) && Heard(st)
    ensures Heard(Act(st, m)) <==> !Forgets(st, m)
  {
    hide Orderly, PttAfter, DoWorker, DoTap, DoTapEnqueue;
    match m
    case Continue =>
      if st.todo != [] {
        TalkingContinue(st);
      }
    case Elsewhere(t) =>
      if OffMain(t) {
        ElsewhereMain(st.sys, t);
      }
    case _ =>
      if st.todo == [] {
        HeardBlock(st, m);
      }
  }

  lemma MuteTalking(st: Store, value: bool)
    requires st.todo == [] && st.sys.stopping == None
    ensures Talking(Mute(st, value)) == (st.sys.ptt.flag && !(value && st.mode == PushToTalk && st.transmitting))
  {
    hide PttAfter, Halt;
    var ptt := st.sys.ptt.flag;
    assert [] + Halt(Ptt) == Halt(Ptt) && [] + [SetMuted(value)] == [SetMuted(value)];
    PttHalt(Ptt, [SetMuted(value)], ptt);
    PttOne(SetMuted(value), ptt);
    PttOne(SetMuted(value), false);
  }

  lemma EndTalking(st: Store)
    requires st.todo == [] && st.sys.stopping == None
    ensures Talking(End(st)) == (st.sys.ptt.flag && !(st.mode == PushToTalk && st.transmitting))
  {
    hide PttAfter, Halt;
    var ptt := st.sys.ptt.flag;
    assert [] + Halt(Ptt) == Halt(Ptt) && [] + Halt(Vox) == Halt(Vox) + [] == Halt(Vox);
    PttHalt(Ptt, Halt(Vox), ptt);
    PttHalt(Vox, [], ptt);
    PttHalt(Vox, [], false);
    NothingLeft(ptt);
    NothingLeft(false);
  }

  lemma HeardBlock(st: Store, m: Move)
    requires Kept(st) && Heard(st) && st.todo == [] && !m.Continue? && !m.Elsewhere?
    ensures Heard(Act(st, m)) <==> !Forgets(st, m)
  {
    hide Step, PttAfter, Halt;
    var ptt := st.sys.ptt.flag;
    KeptIdle(st);
    NothingLeft(ptt);
    NothingLeft(false);
    assert Talking(st) == ptt;
    assert [] + Halt(Ptt) == Halt(Ptt) + [] == Halt(Ptt) && [] + Halt(Vox) == Halt(Vox) + [] == Halt(Vox);
    match m
    case StartTalking(microphone) =>
      assert [] + [PressStart(Ptt, microphone)] == [PressStart(Ptt, microphone)];
      PttOne(PressStart(Ptt, microphone), ptt);
    case StopTalking => PttHalt(Ptt, [], ptt);
    case ChooseMode(mode) => UpdateTalking(st.(mode := mode));
    case MuteMicrophone(value) => MuteTalking(st, value);
    case ChooseSensitivity(threshold) =>
      assert [] + [SetThreshold(threshold)] == [SetThreshold(threshold)];
      PttOne(SetThreshold(threshold), ptt);
    case ChooseInput =>
      PttHalt(Vox, [PressStart(Vox, true)], ptt);
      PttOne(PressStart(Vox, true), ptt);
    case LoggedIn => UpdateTalking(st.(connected := true));
    case StreamEnded => EndTalking(st);
    case GateLevel(open) =>
    case ErrorBlock => HopTalking(st);
    case ErrorReport =>
  }

  lemma UpdateTalking(st: Store)
    requires st.todo == [] && st.sys.stopping == None
    ensures Talking(Update(st)) == (st.sys.ptt.flag && !(st.connected && st.mode == VoiceActivated))
  {
    hide PttAfter, Halt;
    NothingLeft(st.sys.ptt.flag);
    NothingLeft(false);
    var ptt := st.sys.ptt.flag;
    assert [] + Halt(Vox) == Halt(Vox) && Halt(Vox) + [] == Halt(Vox);
    assert [] + Halt(Ptt) + [PressStart(Vox, true)] == Halt(Ptt) + [PressStart(Vox, true)];
    PttHalt(Vox, [], ptt);
    PttHalt(Ptt, [PressStart(Vox, true)], ptt);
    PttOne(PressStart(Vox, true), false);
  }

  lemma HopTalking(st: Store)
    requires st.todo == []
    ensures var s := Step(st.sys, Hop); (s.ptt.flag ==> st.sys.ptt.flag) && s.stopping == st.sys.stopping
  {
  }

  predicate AlwaysHeard(config: Config, mode: Mode, moves: seq<Move>) {
    Heard(After(config, mode, moves)) && (moves == [] || AlwaysHeard(config, mode, moves[..|moves| - 1]))
  }

  predicate NeverForgets(config: Config, mode: Mode, moves: seq<Move>) {
    moves == []
    || (NeverForgets(config, mode, moves[..|moves| - 1])
        && !Forgets(After(config, mode, moves[..|moves| - 1]), moves[|moves| - 1]))
  }

  /** Over whole runs: push-to-talk is on only with the indicator lit, in its own mode, connected and not muted, exactly
      when nothing forgets it. */
  lemma {:induction false} HeardIffNeverForgets(config: Config, mode: Mode, moves: seq<Move>)
    ensures AlwaysHeard(config, mode, moves) <==> NeverForgets(config, mode, moves)
  {
    hide Act, Heard, Forgets, Begin, Kept;
    if moves == [] {
      BeginHeard(config, mode);
    } else {
      var before := moves[..|moves| - 1];
      HeardIffNeverForgets(config, mode, before);
      if AlwaysHeard(config, mode, before) {
        HeardNow(config, mode, before);
        AlwaysKept(config, mode, before);
        HeardAct(After(config, mode, before), moves[|moves| - 1]);
      }
    }
  }

  lemma BeginHeard(config: Config, mode: Mode)
    ensures Heard(Begin(config, mode))
  {
  }

  lemma HeardNow(config: Config, mode: Mode, moves: seq<Move>)
    requires AlwaysHeard(config, mode, moves)
    ensures Heard(After(config, mode, moves))
  {
  }

  /** After a move that forgets, push-to-talk is still on and the key does nothing. */
  lemma ForgottenKey(st: Store, m: Move)
    requires Kept(st) && Heard(st) && Forgets(st, m)
    ensures var t := Act(st, m); Talking(t) && t.mode == PushToTalk && Release(t) == t
  {
    hide Step, Orderly, PttAfter, Halt;
    KeptIdle(st);
    NothingLeft(st.sys.ptt.flag);
    assert Talking(st);
    UpdateTalking(st.(mode := PushToTalk));
    UpdateTalking(st.(connected := true));
  }

  /** With right flags and nothing forgotten, releasing the key ends push-to-talk: once the queue is drained its capture
      does not run, whatever is queued already. */
  lemma ReleaseStops(config: Config, mode: Mode, moves: seq<Move>)
    requires NoStaleHop(config, Trace(config, mode, moves)) && NeverForgets(config, mode, moves)
    requires After(config, mode, moves).todo == []
    ensures var st := After(config, mode, moves);
            !WillRun(Act(Act(Act(st, StopTalking), Continue), Continue).sys, Ptt)
  {
    hide After, Trace, Run, NoStaleHop, AlwaysHeard, NeverForgets, AlwaysFlagged, WillRun, Orderly, Step;
    var st := After(config, mode, moves);
    TraceRuns(config, mode, moves);
    FlaggedIffNoStaleHop(config, Trace(config, mode, moves));
    FlaggedNow(config, Trace(config, mode, moves));
    HeardIffNeverForgets(config, mode, moves);
    HeardNow(config, mode, moves);
    AlwaysKept(config, mode, moves);
    KeptIdle(st);
    if st.mode == PushToTalk && st.transmitting {
      assert [] + Halt(Ptt) == Halt(Ptt) && Halt(Ptt)[1..] == [QueueStop];
      HaltStops(st.sys);
    }
  }

  lemma HaltStops(s: State)
    requires s.stopping == None && (WillRun(s, Ptt) ==> s.ptt.flag)
    ensures !WillRun(Step(Step(s, PressStop(Ptt)), QueueStop), Ptt)
  {
    EventuallySnoc(s.queue, Task.Stop(Ptt), Ptt, s.ptt.running);
    var t := Step(Step(s, PressStop(Ptt)), QueueStop);
    if s.ptt.flag {
      assert t.queue == s.queue + [Task.Stop(Ptt)] && t.ptt.running == s.ptt.running;
    } else {
      assert t == s;
    }
  }

  ghost predicate Reachable(config: Config, mode: Mode, st: Store) {
    exists moves :: After(config, mode, moves) == st
  }

  lemma ReachBegin(config: Config, mode: Mode)
    ensures Reachable(config, mode, Begin(config, mode))
  {
    assert After(config, mode, []) == Begin(config, mode);
  }

  lemma Reach(config: Config, mode: Mode, st: Store, m: Move)
    requires Reachable(config, mode, st)
    ensures Reachable(config, mode, Act(st, m))
  {
    hide Act, Begin;
    var moves :| After(config, mode, moves) == st;
    assert (moves + [m])[..|moves|] == moves;
    assert After(config, mode, moves + [m]) == Act(st, m);
  }

  /** Nothing is going on on the voice-activated side. */
  predicate QuietVox(s: State) {
    !s.vox.flag && !s.vox.running && s.vox.inflight == None && !s.gate.muted
  }

  /** Talking, connected and with nothing else going on. */
  predicate InTalk(st: Store) {
    && QuietVox(st.sys)
    && st.todo == [] && st.sys.queue == [Start(Ptt)] && st.sys.work.Free? && st.sys.hops == []
    && st.sys.stopping == None && st.sys.ptt.flag && !st.sys.ptt.running
    && st.mode == PushToTalk && st.connected && st.transmitting && !st.muted && st.reports == 0
  }

  lemma TalkBegins(config: Config)
    ensures var s0 := Begin(config, PushToTalk);
            InTalk(Act(Act(Act(Act(Act(s0, LoggedIn), Continue), Continue), StartTalking(true)), Continue))
  {
    var s0 := Begin(config, PushToTalk);
    var s1 := Act(s0, LoggedIn);
    assert s1.todo == [PressStop(Vox), QueueStop] && s1.todo[1..] == [QueueStop];
    var s2 := Act(s1, Continue);
    assert s2.todo == [QueueStop] && s2.todo[1..] == [] && s2.sys == s0.sys;
    var s3 := Act(s2, Continue);
    assert s3.todo == [] && s3.sys == s0.sys && s3.connected && !s3.transmitting;
    var s4 := Act(s3, StartTalking(true));
    assert s4.todo == [PressStart(Ptt, true)] && s4.todo[1..] == [] && s4.transmitting;
    var s5 := Act(s4, Continue);
    assert s5.sys.queue == [] + [Start(Ptt)];
  }

  /** The start has failed, and the error block is through but its report is not. */
  predicate Unreported(st: Store) {
    && st.todo == [] && st.sys.stopping == None && !st.sys.ptt.flag
    && st.mode == PushToTalk && st.connected && st.transmitting && !st.muted && st.reports == 1
  }

  lemma TalkFails(st: Store)
    requires InTalk(st)
    ensures Unreported(Act(Act(st, Elsewhere(Worker(false, true))), ErrorBlock))
  {
    hide Cleared;
    var s1 := Act(st, Elsewhere(Worker(false, true)));
    assert s1.sys.hops == [] + [Ptt] == [Ptt] && s1.sys.ptt.flag && s1.todo == [] && s1.sys.stopping == None;
  }

  /** Release and press again, and only then the error report. */
  lemma ReportIsLate(st: Store)
    requires Unreported(st)
    ensures var released := Act(Act(Act(st, StopTalking), Continue), Continue);
            Forgets(Act(Act(released, StartTalking(true)), Continue), ErrorReport)
  {
    var s3 := Act(st, StopTalking);
    assert s3.todo == [PressStop(Ptt), QueueStop] && s3.todo[1..] == [QueueStop] && [QueueStop][1..] == [];
    var s4 := Act(Act(s3, Continue), Continue);
    assert s4.todo == [] && !s4.transmitting && s4.reports == 1 && !s4.sys.ptt.flag && s4.sys.stopping == None;
    var s5 := Act(s4, StartTalking(true));
    assert s5.todo == [PressStart(Ptt, true)] && s5.todo[1..] == [];
  }

  lemma ReachTalk(config: Config) returns (st: Store)
    ensures Reachable(config, PushToTalk, st) && InTalk(st)
  {
    hide Act, Begin, Reachable, InTalk;
    st := Begin(config, PushToTalk);
    TalkBegins(config);
    ReachBegin(config, PushToTalk);
    Reach(config, PushToTalk, st, LoggedIn);
    st := Act(st, LoggedIn);
    Reach(config, PushToTalk, st, Continue);
    st := Act(st, Continue);
    Reach(config, PushToTalk, st, Continue);
    st := Act(st, Continue);
    Reach(config, PushToTalk, st, StartTalking(true));
    st := Act(st, StartTalking(true));
    Reach(config, PushToTalk, st, Continue);
    st := Act(st, Continue);
  }

  lemma ReachLate(config: Config) returns (st: Store)
    ensures Reachable(config, PushToTalk, st) && Forgets(st, ErrorReport)
  {
    hide Act, Begin, Reachable, InTalk, Unreported, Forgets;
    st := ReachTalk(config);
    TalkFails(st);
    Reach(config, PushToTalk, st, Elsewhere(Worker(false, true)));
    st := Act(st, Elsewhere(Worker(false, true)));
    Reach(config, PushToTalk, st, ErrorBlock);
    st := Act(st, ErrorBlock);
    ReportIsLate(st);
    Reach(config, PushToTalk, st, StopTalking);
    st := Act(st, StopTalking);
    Reach(config, PushToTalk, st, Continue);
    st := Act(st, Continue);
    Reach(config, PushToTalk, st, Continue);
    st := Act(st, Continue);
    Reach(config, PushToTalk, st, StartTalking(true));
    st := Act(st, StartTalking(true));
    Reach(config, PushToTalk, st, Continue);
    st := Act(st, Continue);
  }

  /** Both ways to forget occur: a late error report, and choosing push-to-talk again while talking. */
  lemma KeyForgotten(config: Config)
    ensures exists st :: Reachable(config, PushToTalk, st) && Forgets(st, ErrorReport)
    ensures exists st :: Reachable(config, PushToTalk, st) && Forgets(st, ChooseMode(PushToTalk))
  {
    hide Reachable, Forgets;
    var late := ReachLate(config);
    var st := ReachTalk(config);
    TalkForgets(st);
  }

  /** The start has failed, and the error block is not through. */
  predicate Failed(st: Store) {
    && QuietVox(st.sys) && st.sys.work.Free? && !st.sys.ptt.running
    && st.todo == [] && st.sys.queue == [] && st.sys.hops == [Ptt] && st.sys.stopping == None && st.sys.ptt.flag
    && st.mode == PushToTalk && st.connected && st.transmitting && !st.muted
  }

  lemma TalkFailed(st: Store)
    requires InTalk(st)
    ensures Failed(Act(st, Elsewhere(Worker(false, true))))
  {
    hide Cleared;
  }

  /** The error block is about to be overtaken, or is already. */
  predicate Late(st: Store) {
    st.todo == [] && Overtaken(st.sys) && QuietVox(st.sys) && st.connected && st.mode == PushToTalk
  }

  /** The key is released, and the error block is still not through. */
  predicate Released(st: Store) {
    && QuietVox(st.sys) && st.sys.work.Free? && !st.sys.ptt.running
    && st.todo == [] && st.sys.queue == [Task.Stop(Ptt)] && st.sys.hops == [Ptt] && st.sys.stopping == None
    && !st.sys.ptt.flag && st.mode == PushToTalk && st.connected && !st.transmitting && !st.muted
  }

  lemma ReleaseFailed(st: Store)
    requires Failed(st)
    ensures Released(Act(Act(Act(st, StopTalking), Continue), Continue))
  {
    hide DoWorker, DoTap, DoTapEnqueue, DoHop;
    var s1 := Act(st, StopTalking);
    assert s1.todo == [PressStop(Ptt), QueueStop] && s1.todo[1..] == [QueueStop] && [QueueStop][1..] == [];
    assert [] + [Task.Stop(Ptt)] == [Task.Stop(Ptt)];
  }

  lemma PressOvertakes(st: Store)
    requires Released(st)
    ensures Late(Act(Act(st, StartTalking(true)), Continue))
  {
    hide DoWorker, DoTap, DoTapEnqueue, DoHop;
    var s1 := Act(st, StartTalking(true));
    assert s1.todo == [PressStart(Ptt, true)] && s1.todo[1..] == [];
    assert [Task.Stop(Ptt)] + [Start(Ptt)] == [Task.Stop(Ptt), Start(Ptt)];
  }

  lemma OvertakenIsStale(s: State)
    requires Overtaken(s)
    ensures StaleHop(s, Hop)
  {
    EventuallySnoc([Task.Stop(Ptt)], Start(Ptt), Ptt, s.ptt.running);
    assert s.queue == [Task.Stop(Ptt)] + [Start(Ptt)];
  }

  lemma ReachLateHop(config: Config) returns (st: Store)
    ensures Reachable(config, PushToTalk, st) && Late(st)
  {
    hide Act, Begin, Reachable, InTalk, Failed, Released, Late;
    st := ReachTalk(config);
    TalkFailed(st);
    Reach(config, PushToTalk, st, Elsewhere(Worker(false, true)));
    st := Act(st, Elsewhere(Worker(false, true)));
    ReleaseFailed(st);
    Reach(config, PushToTalk, st, StopTalking);
    st := Act(st, StopTalking);
    Reach(config, PushToTalk, st, Continue);
    st := Act(st, Continue);
    Reach(config, PushToTalk, st, Continue);
    st := Act(st, Continue);
    PressOvertakes(st);
    Reach(config, PushToTalk, st, StartTalking(true));
    st := Act(st, StartTalking(true));
    Reach(config, PushToTalk, st, Continue);
    st := Act(st, Continue);
  }

  /** The guards do not keep an error block from being overtaken: release and press before it runs. */
  lemma ErrorOvertaken(config: Config)
    ensures exists st :: Reachable(config, PushToTalk, st) && st.todo == [] && StaleHop(st.sys, Hop)
  {
    hide Reachable, StaleHop;
    var st := ReachLateHop(config);
    OvertakenIsStale(st.sys);
  }

  /** The worker goes on, and then the error block comes. */
  lemma LateHopUnnoticed(st: Store)
    requires Late(st)
    ensures var t := Act(Act(Act(st, Elsewhere(Worker(true, true))), Elsewhere(Worker(true, true))), ErrorBlock); (
              t.todo == [] && Unnoticed(t.sys) && t.connected && t.mode == PushToTalk)
  {
    hide Step, Unnoticed;
    OvertakenUnnoticed(st.sys);
    StartedHop(st.sys);
  }

  lemma StartedHop(s: State)
    requires Overtaken(s)
    ensures Step(Step(s, Worker(true, true)), Worker(true, true)).hops != []
  {
    hide Cleared;
  }

  /** Choosing voice activation stops nothing, because push-to-talk's flag is down. */
  lemma ModeUnnoticed(st: Store)
    requires st.todo == [] && Unnoticed(st.sys) && st.connected
    ensures var t := Act(Act(Act(st, ChooseMode(VoiceActivated)), Continue), Continue); (
              t.todo == [PressStart(Vox, true)] && t.sys == st.sys)
  {
    var s1 := Act(st, ChooseMode(VoiceActivated));
    assert s1.todo == [PressStop(Ptt), QueueStop, PressStart(Vox, true)];
    assert s1.todo[1..] == [QueueStop, PressStart(Vox, true)];
    assert [QueueStop, PressStart(Vox, true)][1..] == [PressStart(Vox, true)];
  }

  lemma ReachUnnoticed(config: Config) returns (st: Store)
    ensures Reachable(config, PushToTalk, st) && st.todo == [PressStart(Vox, true)] && Unnoticed(st.sys)
  {
    hide Act, Begin, Reachable, Late, Unnoticed;
    st := ReachLateHop(config);
    LateHopUnnoticed(st);
    Reach(config, PushToTalk, st, Elsewhere(Worker(true, true)));
    st := Act(st, Elsewhere(Worker(true, true)));
    Reach(config, PushToTalk, st, Elsewhere(Worker(true, true)));
    st := Act(st, Elsewhere(Worker(true, true)));
    Reach(config, PushToTalk, st, ErrorBlock);
    st := Act(st, ErrorBlock);
    ModeUnnoticed(st);
    Reach(config, PushToTalk, st, ChooseMode(VoiceActivated));
    st := Act(st, ChooseMode(VoiceActivated));
    Reach(config, PushToTalk, st, Continue);
    st := Act(st, Continue);
    Reach(config, PushToTalk, st, Continue);
    st := Act(st, Continue);
  }

  /** And then sharing is lost: an overtaken error block, a change of mode and one loud chunk put the voice-activated
      side on the air over push-to-talk. */
  lemma SharingLost(config: Config)
    ensures exists st :: Reachable(config, PushToTalk, st) && !Shared(st.sys.log)
  {
    hide Step, Begin, Reachable, Unnoticed, Shared;
    var st := ReachUnnoticed(config);
    var loud := Tap(Vox, 1, 10, st.sys.gate.config.openThreshold);
    UnnoticedIsUnsafe(st.sys);
    Reach(config, PushToTalk, st, Continue);
    st := Act(st, Continue);
    Reach(config, PushToTalk, st, Elsewhere(Worker(true, true)));
    st := Act(st, Elsewhere(Worker(true, true)));
    Reach(config, PushToTalk, st, Elsewhere(loud));
    st := Act(st, Elsewhere(loud));
    Reach(config, PushToTalk, st, Elsewhere(TapEnqueue(Vox)));
    st := Act(st, Elsewhere(TapEnqueue(Vox)));
    Reach(config, PushToTalk, st, Elsewhere(Worker(true, true)));
    st := Act(st, Elsewhere(Worker(true, true)));
    Reach(config, PushToTalk, st, Elsewhere(Worker(true, true)));
    st := Act(st, Elsewhere(Worker(true, true)));
  }

  lemma TalkForgets(st: Store)
    requires InTalk(st)
    ensures Forgets(st, ChooseMode(PushToTalk))
  {
  }
}
