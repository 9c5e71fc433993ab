/** What a recording means: the list of talk spurts and text binds, in the order in which they began.

    The recorder of VrfRecorder keeps this list as a ghost value; the byte images of VrfImage are functions of it. */
module VrfLog {
  import opened Bytes
  import opened Options
  import opened VrfFormat

  /** User id 0 marks an empty queue slot in the recorder, so it never records. */
  type UserId = u: int | 0 < u < 0x1_0000 witness 1

  datatype Frag =
    | Voice(time: u32, pcmlen: u32, codec: u16, codecformat: u16, payload: blob)
    | Note(time: u32, text: seq<byte>)

  datatype Kind = Ext | Text

  datatype Spurt = Spurt(user: UserId, kind: Kind, name: Name, frags: seq<Frag>, stopped: bool)

  datatype EventKind = AudioData | TextData | AudioStop | Flush

  /** The arguments of `_v3_vrf_record_event`. `name` is what `v3_get_user` finds; `time` is the clock reading. */
  datatype Event = Event(
    kind: EventKind,
    user: UserId,
    name: Option<seq<byte>>,
    codec: u16,
    codecformat: u16,
    pcmlen: u32,
    data: Option<blob>,
    time: u32)
  {
    /** An event of an unknown user is treated as a flush. */
    function Effective(): EventKind {
      if name.None? then Flush else kind
    }
  }

  function FragOf(ev: Event): Frag
    requires ev.data.Some?
  {
    if ev.kind.TextData? then Note(ev.time, CStr(ev.data.value))
    else Voice(ev.time, ev.pcmlen, ev.codec, ev.codecformat, ev.data.value)
  }

  predicate IsOpenFor(s: Spurt, user: UserId) {
    s.user == user && !s.stopped
  }

  /** The first spurt of the user that is still open, or |segs|. */
  function FindOpen(segs: seq<Spurt>, user: UserId): (i: nat)
    ensures i <= |segs|
    ensures i < |segs| ==> IsOpenFor(segs[i], user)
    ensures forall j :: 0 <= j < i ==> !IsOpenFor(segs[j], user)
  {
    if segs == [] || IsOpenFor(segs[0], user) then 0 else 1 + FindOpen(segs[1..], user)
  }

  function LeadingStopped(segs: seq<Spurt>): (n: nat)
    ensures n <= |segs|
    ensures n < |segs| ==> !segs[n].stopped
    ensures forall j :: 0 <= j < n ==> segs[j].stopped
  {
    if segs == [] || !segs[0].stopped then 0 else 1 + LeadingStopped(segs[1..])
  }

  function StopAll(segs: seq<Spurt>): (r: seq<Spurt>)
    ensures |r| == |segs|
    ensures forall i :: 0 <= i < |r| ==> r[i] == segs[i].(stopped := true)
  {
    seq(|segs|, i requires 0 <= i < |segs| => segs[i].(stopped := true))
  }

  function Extend(s: Spurt, f: Frag): Spurt {
    s.(frags := s.frags + [f], stopped := f.Note?)
  }

  function Begin(ev: Event): Spurt
    requires ev.data.Some? && ev.name.Some?
  {
    Spurt(ev.user, if ev.kind.TextData? then Text else Ext, NameField(ev.name.value, NAME_LEN), [FragOf(ev)],
          ev.kind.TextData?)
  }

  /** One event on the list of spurts. */
  function Apply(segs: seq<Spurt>, ev: Event): seq<Spurt> {
    var i := FindOpen(segs, ev.user);
    match ev.Effective()
    case AudioData | TextData =>
      if ev.data.None? then segs
      else if i < |segs| then segs[i := Extend(segs[i], FragOf(ev))]
      else segs + [Begin(ev)]
    case AudioStop =>
      if i < |segs| then segs[i := segs[i].(stopped := true)] else segs
    case Flush =>
      StopAll(segs)
  }

  /** `written` is how many spurts have reached the file; spurts before the first open one are finished. */
  datatype Log = Log(segs: seq<Spurt>, written: nat)
  {
    function Done(): nat {
      LeadingStopped(segs)
    }

    /** Finished spurts are on disk; of the others at most the first one is. */
    ghost predicate Valid() {
      && Done() <= written <= Done() + 1
      && written <= |segs|
      && (forall i :: 0 <= i < |segs| ==> segs[i].frags != [])
      && (forall i, j :: 0 <= i < j < |segs| && segs[i].user == segs[j].user ==> segs[i].stopped)
    }
  }

  const EMPTY_LOG: Log := Log([], 0)

  function Step(log: Log, ev: Event): Log {
    var segs := Apply(log.segs, ev);
    var done := LeadingStopped(segs);
    Log(segs, if done == log.Done() && done < |segs| then done + 1 else done)
  }

  function Run(log: Log, history: seq<Event>): Log
    decreases |history|
  {
    if history == [] then log else Step(Run(log, history[..|history| - 1]), history[|history| - 1])
  }

  lemma FindOpenUnique(segs: seq<Spurt>, user: UserId, i: nat)
    requires i < |segs| && IsOpenFor(segs[i], user)
    requires forall j :: 0 <= j < i ==> !IsOpenFor(segs[j], user)
    ensures FindOpen(segs, user) == i
  {
  }

  lemma LeadingStoppedUnique(segs: seq<Spurt>, n: nat)
    requires n <= |segs|
    requires n < |segs| ==> !segs[n].stopped
    requires forall j :: 0 <= j < n ==> segs[j].stopped
    ensures LeadingStopped(segs) == n
  {
  }

  /** One event never reorders or rewrites: a spurt keeps its index, its identity and the fragments it has, a stopped
      spurt never changes again, and at most one spurt is added, at the end. */
  ghost predicate Grows(a: seq<Spurt>, b: seq<Spurt>) {
    && |a| <= |b|
    && (forall i :: 0 <= i < |a| ==>
          && b[i].user == a[i].user && b[i].kind == a[i].kind && b[i].name == a[i].name
          && a[i].frags <= b[i].frags
          && (a[i].stopped ==> b[i] == a[i]))
  }

  lemma ApplyGrows(segs: seq<Spurt>, ev: Event)
    ensures Grows(segs, Apply(segs, ev))
    ensures |Apply(segs, ev)| <= |segs| + 1
  {
  }

  lemma DoneGrows(a: seq<Spurt>, b: seq<Spurt>)
    requires Grows(a, b)
    ensures LeadingStopped(a) <= LeadingStopped(b)
  {
    assert forall j :: 0 <= j < LeadingStopped(a) ==> a[j].stopped && b[j] == a[j];
  }

  /** Every event keeps the log valid. */
  lemma StepValid(log: Log, ev: Event)
    requires log.Valid()
    ensures Step(log, ev).Valid()
  {
    ApplyGrows(log.segs, ev);
    DoneGrows(log.segs, Apply(log.segs, ev));
    var i := FindOpen(log.segs, ev.user);
    if i == |log.segs| {
      assert forall j :: 0 <= j < i && log.segs[j].user == ev.user ==> log.segs[j].stopped by {
        assert forall j :: 0 <= j < i ==> !IsOpenFor(log.segs[j], ev.user);
      }
    }
  }

  lemma {:induction false} RunValid(log: Log, history: seq<Event>)
    requires log.Valid()
    ensures Run(log, history).Valid()
    ensures Grows(log.segs, Run(log, history).segs)
    decreases |history|
  {
    if history != [] {
      var n := |history| - 1;
      RunValid(log, history[..n]);
      StepValid(Run(log, history[..n]), history[n]);
      ApplyGrows(Run(log, history[..n]).segs, history[n]);
      GrowsTransitive(log.segs, Run(log, history[..n]).segs, Run(log, history).segs);
    }
  }

  lemma GrowsTransitive(a: seq<Spurt>, b: seq<Spurt>, c: seq<Spurt>)
    requires Grows(a, b) && Grows(b, c)
    ensures Grows(a, c)
  {
    forall i | 0 <= i < |a|
      ensures a[i].frags <= c[i].frags
    {
      assert a[i].frags <= b[i].frags <= c[i].frags;
    }
  }

  // ----- demultiplexing, judged against a recorder that only ever hears one user

  /** The spurts of one user. */
  function Of(segs: seq<Spurt>, user: UserId): seq<Spurt> {
    if segs == [] then []
    else
      var n := |segs| - 1;
      Of(segs[..n], user) + (if segs[n].user == user then [segs[n]] else [])
  }

  function StopLast(own: seq<Spurt>): seq<Spurt> {
    if own == [] then own else own[|own| - 1 := own[|own| - 1].(stopped := true)]
  }

  /** One user alone: a fragment joins the last spurt if that is still open and begins a new one otherwise. */
  function SoloStep(own: seq<Spurt>, ev: Event, user: UserId): seq<Spurt> {
    match ev.Effective()
    case Flush => StopLast(own)
    case AudioStop => if ev.user == user then StopLast(own) else own
    case AudioData | TextData =>
      if ev.user != user || ev.data.None? then own
      else if own != [] && !own[|own| - 1].stopped then own[|own| - 1 := Extend(own[|own| - 1], FragOf(ev))]
      else own + [Begin(ev)]
  }

  function Solo(history: seq<Event>, user: UserId): seq<Spurt> {
    if history == [] then []
    else SoloStep(Solo(history[..|history| - 1], user), history[|history| - 1], user)
  }

  /** Replacing a spurt of another user does not show. */
  lemma {:induction false} OfUpdateOther(segs: seq<Spurt>, i: nat, s: Spurt, user: UserId)
    requires i < |segs| && segs[i].user == s.user != user
    ensures Of(segs[i := s], user) == Of(segs, user)
  {
    var n := |segs| - 1;
    if i < n {
      OfUpdateOther(segs[..n], i, s, user);
      assert segs[i := s][..n] == segs[..n][i := s];
    } else {
      assert segs[i := s][..n] == segs[..n];
    }
  }

  /** The last spurt of a user is where that user's open spurt shows. */
  lemma {:induction false} OfUpdateLast(segs: seq<Spurt>, i: nat, s: Spurt, user: UserId)
    requires i < |segs| && segs[i].user == s.user == user
    requires forall j :: i < j < |segs| ==> segs[j].user != user
    ensures Of(segs, user) != [] && Of(segs, user)[|Of(segs, user)| - 1] == segs[i]
    ensures Of(segs[i := s], user) == Of(segs, user)[|Of(segs, user)| - 1 := s]
  {
    var n := |segs| - 1;
    if i < n {
      OfUpdateLast(segs[..n], i, s, user);
      assert segs[i := s][..n] == segs[..n][i := s];
    } else {
      assert segs[i := s][..n] == segs[..n];
    }
  }

  lemma {:induction false} OfAllStopped(segs: seq<Spurt>, user: UserId)
    requires forall i :: 0 <= i < |segs| ==> !IsOpenFor(segs[i], user)
    ensures forall k :: 0 <= k < |Of(segs, user)| ==> Of(segs, user)[k].stopped
  {
    if segs != [] {
      OfAllStopped(segs[..|segs| - 1], user);
    }
  }

  lemma StopLastStopped(own: seq<Spurt>)
    requires forall k :: 0 <= k < |own| ==> own[k].stopped
    ensures StopLast(own) == own
  {
  }

  lemma {:induction false} OfStopAll(segs: seq<Spurt>, user: UserId)
    requires forall i, j :: 0 <= i < j < |segs| && segs[i].user == segs[j].user ==> segs[i].stopped
    ensures Of(StopAll(segs), user) == StopLast(Of(segs, user))
  {
    if segs != [] {
      var n := |segs| - 1;
      assert StopAll(segs)[..n] == StopAll(segs[..n]);
      OfStopAll(segs[..n], user);
      if segs[n].user == user {
        OfAllStopped(segs[..n], user);
        StopLastStopped(Of(segs[..n], user));
      }
    }
  }

  /** The open spurt of the event's user changes to s, or stays when the event is of another user. */
  lemma OfUpdateOpen(log: Log, s: Spurt, ev: Event, user: UserId)
    requires log.Valid()
    requires FindOpen(log.segs, ev.user) < |log.segs| && s.user == ev.user
    ensures var own, own' := Of(log.segs, user), Of(log.segs[FindOpen(log.segs, ev.user) := s], user);
            if ev.user == user
            then own != [] && own[|own| - 1] == log.segs[FindOpen(log.segs, ev.user)] && own' == own[|own| - 1 := s]
            else own' == own
  {
    var i := FindOpen(log.segs, ev.user);
    if ev.user == user {
      OfUpdateLast(log.segs, i, s, user);
    } else {
      OfUpdateOther(log.segs, i, s, user);
    }
  }

  /** Without an open spurt all the user's spurts are stopped, and a new one is the user's last. */
  lemma OfNoneOpen(segs: seq<Spurt>, s: Spurt, user: UserId)
    requires FindOpen(segs, s.user) == |segs|
    ensures Of(segs + [s], user) == Of(segs, user) + (if s.user == user then [s] else [])
    ensures s.user == user ==> forall k :: 0 <= k < |Of(segs, user)| ==> Of(segs, user)[k].stopped
  {
    assert (segs + [s])[..|segs|] == segs;
    if s.user == user {
      OfAllStopped(segs, user);
    }
  }

  lemma DemuxData(log: Log, ev: Event, user: UserId)
    requires log.Valid() && ev.data.Some? && (ev.Effective().AudioData? || ev.Effective().TextData?)
    ensures Of(Apply(log.segs, ev), user) == SoloStep(Of(log.segs, user), ev, user)
  {
    var i := FindOpen(log.segs, ev.user);
    if i < |log.segs| {
      OfUpdateOpen(log, Extend(log.segs[i], FragOf(ev)), ev, user);
    } else {
      OfNoneOpen(log.segs, Begin(ev), user);
    }
  }

  lemma DemuxStop(log: Log, ev: Event, user: UserId)
    requires log.Valid() && ev.Effective().AudioStop?
    ensures Of(Apply(log.segs, ev), user) == SoloStep(Of(log.segs, user), ev, user)
  {
    var i := FindOpen(log.segs, ev.user);
    if i < |log.segs| {
      OfUpdateOpen(log, log.segs[i].(stopped := true), ev, user);
    } else if ev.user == user {
      OfAllStopped(log.segs, user);
      StopLastStopped(Of(log.segs, user));
    }
  }

  lemma DemuxStep(log: Log, ev: Event, user: UserId)
    requires log.Valid()
    ensures Of(Apply(log.segs, ev), user) == SoloStep(Of(log.segs, user), ev, user)
  {
    match ev.Effective()
    case Flush => OfStopAll(log.segs, user);
    case AudioStop => DemuxStop(log, ev, user);
    case AudioData | TextData =>
      if ev.data.Some? {
        DemuxData(log, ev, user);
      }
  }

  /** Demultiplexing is lossless: whatever the other users did, a user's spurts, in index order, are those of a
      recorder that heard only this user's events and the flushes. */
  lemma {:induction false} DemuxIsSolo(history: seq<Event>, user: UserId)
    ensures Of(Run(EMPTY_LOG, history).segs, user) == Solo(history, user)
    decreases |history|
  {
    if history != [] {
      var n := |history| - 1;
      var ev := history[n];
      DemuxIsSolo(history[..n], user);
      RunValid(EMPTY_LOG, history[..n]);
      DemuxStep(Run(EMPTY_LOG, history[..n]), ev, user);
    }
  }
}
