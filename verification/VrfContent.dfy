/** What a recording holds, event by event, judged by the history alone: which events are kept, with which fields, and
    where one segment ends and the next one begins. */
module VrfContent {
  import opened Bytes
  import opened VrfLog

  /** Voice or text of this user that can be recorded: the user is known and there is something to keep. */
  predicate IsData(ev: Event, user: UserId) {
    ev.user == user && (ev.kind.AudioData? || ev.kind.TextData?) && ev.name.Some? && ev.data.Some?
  }

  /** The positions of those events in the history. */
  function DataAt(history: seq<Event>, user: UserId): (at: seq<nat>)
    ensures forall k :: 0 <= k < |at| ==> at[k] < |history| && IsData(history[at[k]], user)
  {
    if history == [] then []
    else
      var n := |history| - 1;
      DataAt(history[..n], user) + (if IsData(history[n], user) then [n] else [])
  }

  /** `text` is the C string that `data` begins with. */
  predicate IsCText(text: seq<byte>, data: seq<byte>) {
    text <= data && 0 !in text && (|text| == |data| || data[|text|] == 0)
  }

  /** The fragment holds the event: time, lengths, codec and payload, or time and text. */
  predicate Holds(f: Frag, ev: Event)
    requires ev.data.Some?
  {
    match f
    case Voice(time, pcmlen, codec, codecformat, payload) =>
      && ev.kind.AudioData? && time == ev.time && pcmlen == ev.pcmlen
      && codec == ev.codec && codecformat == ev.codecformat && payload == ev.data.value
    case Note(time, text) =>
      ev.kind.TextData? && time == ev.time && IsCText(text, ev.data.value)
  }

  /** The event ends what the user is recording: a stop of the user, a text of the user, a flush, or an event of
      somebody unknown. */
  predicate Ends(ev: Event, user: UserId) {
    || ev.kind.Flush? || ev.name.None?
    || (ev.user == user && (ev.kind.AudioStop? || (ev.kind.TextData? && ev.data.Some?)))
  }

  /** Something ends the user's recording from position i on and before position j. */
  ghost predicate Cut(history: seq<Event>, user: UserId, i: nat, j: nat)
    requires j <= |history|
  {
    exists m :: i <= m < j && Ends(history[m], user)
  }

  /** All fragments of some spurts, in order. */
  function Flat(own: seq<Spurt>): seq<Frag> {
    if own == [] then [] else Flat(own[..|own| - 1]) + own[|own| - 1].frags
  }

  /** Where the fragments of each spurt begin in that list. */
  function Firsts(own: seq<Spurt>): (r: seq<nat>)
    ensures |r| == |own|
  {
    if own == [] then [] else Firsts(own[..|own| - 1]) + [|Flat(own[..|own| - 1])|]
  }

  /** A field of n bytes with at most `max` bytes of the C string, padded with zeros. */
  predicate IsField(field: seq<byte>, raw: seq<byte>, max: nat, n: nat) {
    && |field| == n
    && forall i :: 0 <= i < n ==> field[i] == if i < max && i < |raw| && 0 !in raw[..i + 1] then raw[i] else 0
  }

  /** The spurt is labelled as the event says. */
  predicate Labelled(s: Spurt, ev: Event) {
    && s.user == ev.user && (s.kind.Text? <==> ev.kind.TextData?)
    && ev.name.Some? && IsField(s.name, ev.name.value, 31, 32)
  }

  // ----- the statement

  /** The fragments are the user's data events, one by one. */
  ghost predicate Copied(own: seq<Spurt>, history: seq<Event>, user: UserId) {
    var at := DataAt(history, user);
    |Flat(own)| == |at| && forall k :: 0 <= k < |at| ==> Holds(Flat(own)[k], history[at[k]])
  }

  /** A fragment begins a segment exactly if it is the first one, or something has ended the recording since the one
      before it. */
  ghost predicate Divided(own: seq<Spurt>, history: seq<Event>, user: UserId) {
    var at := DataAt(history, user);
    forall k :: 0 <= k < |at| ==> (k in Firsts(own) <==> Fresh(history, user, k))
  }

  /** The user's data event k is the first one, or something has ended the recording since the one before it. */
  ghost predicate Fresh(history: seq<Event>, user: UserId, k: nat)
    requires k < |DataAt(history, user)|
  {
    k == 0 || Cut(history, user, DataAt(history, user)[k - 1], DataAt(history, user)[k])
  }

  /** Each segment has its label from its first fragment's event. */
  ghost predicate Headed(own: seq<Spurt>, history: seq<Event>, user: UserId) {
    var at := DataAt(history, user);
    forall i :: 0 <= i < |own| ==>
      own[i].frags != [] && Firsts(own)[i] < |at| && Labelled(own[i], history[at[Firsts(own)[i]]])
  }

  /** All segments but the last are finished; the last one is exactly if something has ended the recording since. */
  ghost predicate Finished(own: seq<Spurt>, history: seq<Event>, user: UserId) {
    var at := DataAt(history, user);
    && |own| <= |at| && (own == [] <==> at == [])
    && (forall i :: 0 <= i < |own| - 1 ==> own[i].stopped)
    && (own != [] ==> (own[|own| - 1].stopped <==> Cut(history, user, at[|at| - 1], |history|)))
  }

  // ----- one fragment

  lemma {:induction false} CStrIs(s: seq<byte>)
    ensures IsCText(CStr(s), s)
  {
    if s != [] && s[0] != 0 {
      CStrIs(s[1..]);
    }
  }

  lemma StrncpyIs(raw: seq<byte>, n: nat)
    ensures IsField(Strncpy(raw, n), raw, n, n)
  {
    var c := CStr(raw);
    CStrIs(raw);
    forall i | 0 <= i < n
      ensures Strncpy(raw, n)[i] == if i < |raw| && 0 !in raw[..i + 1] then raw[i] else 0
    {
      if i < |c| {
        assert raw[..i + 1] == c[..i + 1];
      } else if i < |raw| {
        assert raw[..i + 1][|c|] == 0;
      }
    }
  }

  lemma NameFieldIs(raw: seq<byte>)
    ensures IsField(NameField(raw, 32), raw, 31, 32)
  {
    hide Strncpy;
    StrncpyIs(raw, 31);
  }

  lemma FragHolds(ev: Event, user: UserId)
    requires IsData(ev, user)
    ensures Holds(FragOf(ev), ev) && (FragOf(ev).Note? <==> ev.kind.TextData?)
  {
    CStrIs(ev.data.value);
  }

  lemma BeginLabelled(ev: Event, user: UserId)
    requires IsData(ev, user)
    ensures Labelled(Begin(ev), ev)
  {
    hide IsField;
    NameFieldIs(ev.name.value);
  }

  // ----- lists of spurts

  lemma FlatSnoc(own: seq<Spurt>, s: Spurt)
    ensures Flat(own + [s]) == Flat(own) + s.frags && Firsts(own + [s]) == Firsts(own) + [|Flat(own)|]
  {
    assert (own + [s])[..|own|] == own;
  }

  /** The last spurt with one more fragment. */
  lemma FlatExtend(own: seq<Spurt>, f: Frag)
    requires own != []
    ensures var n := |own| - 1;
            var more := own[n := Extend(own[n], f)]; (
              Flat(more) == Flat(own) + [f] && Firsts(more) == Firsts(own))
  {
    var n := |own| - 1;
    var more := own[n := Extend(own[n], f)];
    assert more[..n] == own[..n];
    assert Flat(own[..n]) + (own[n].frags + [f]) == Flat(own[..n]) + own[n].frags + [f];
  }

  lemma FlatStop(own: seq<Spurt>)
    ensures Flat(StopLast(own)) == Flat(own) && Firsts(StopLast(own)) == Firsts(own)
  {
    if own != [] {
      assert StopLast(own)[..|own| - 1] == own[..|own| - 1];
    }
  }

  // ----- one event

  lemma CutEarlier(history: seq<Event>, ev: Event, user: UserId, i: nat, j: nat)
    requires j <= |history|
    ensures Cut(history + [ev], user, i, j) <==> Cut(history, user, i, j)
  {
    if Cut(history, user, i, j) {
      var m :| i <= m < j && Ends(history[m], user);
      assert Ends((history + [ev])[m], user);
    }
    if Cut(history + [ev], user, i, j) {
      var m :| i <= m < j && Ends((history + [ev])[m], user);
      assert Ends(history[m], user);
    }
  }

  lemma CutNow(history: seq<Event>, ev: Event, user: UserId, i: nat)
    requires i <= |history|
    ensures Cut(history + [ev], user, i, |history| + 1) <==> Cut(history, user, i, |history|) || Ends(ev, user)
  {
    var all := history + [ev];
    if Ends(ev, user) {
      assert Ends(all[|history|], user);
    }
    CutEarlier(history, ev, user, i, |history|);
    if Cut(history, user, i, |history|) {
      var m :| i <= m < |history| && Ends(all[m], user);
      assert Cut(all, user, i, |history| + 1);
    }
  }

  lemma DataSnoc(history: seq<Event>, ev: Event, user: UserId)
    ensures DataAt(history + [ev], user) == DataAt(history, user) + (if IsData(ev, user) then [|history|] else [])
  {
    assert (history + [ev])[..|history|] == history;
  }

  /** Which event is fresh does not depend on later events. */
  lemma StillFresh(history: seq<Event>, ev: Event, user: UserId, k: nat)
    requires k < |DataAt(history, user)|
    ensures |DataAt(history, user)| <= |DataAt(history + [ev], user)|
    ensures Fresh(history + [ev], user, k) <==> Fresh(history, user, k)
  {
    hide Cut, IsData, DataAt;
    DataSnoc(history, ev, user);
    if k > 0 {
      CutEarlier(history, ev, user, DataAt(history, user)[k - 1], DataAt(history, user)[k]);
    }
  }

  lemma NowFresh(history: seq<Event>, ev: Event, user: UserId)
    requires IsData(ev, user)
    ensures var at := DataAt(history, user); (
              && |DataAt(history + [ev], user)| == |at| + 1
              && (Fresh(history + [ev], user, |at|) <==> at == [] || Cut(history, user, at[|at| - 1], |history|)))
  {
    hide Cut, IsData, DataAt;
    var at := DataAt(history, user);
    DataSnoc(history, ev, user);
    if at != [] {
      CutEarlier(history, ev, user, at[|at| - 1], |history|);
    }
  }

  lemma StillDivided(own: seq<Spurt>, own': seq<Spurt>, history: seq<Event>, ev: Event, user: UserId)
    requires Divided(own, history, user) && Firsts(own') == Firsts(own) && !IsData(ev, user)
    ensures Divided(own', history + [ev], user)
  {
    hide Firsts, Cut, IsData, DataAt, Fresh;
    DataSnoc(history, ev, user);
    forall k | 0 <= k < |DataAt(history, user)|
      ensures Fresh(history + [ev], user, k) <==> Fresh(history, user, k)
    {
      StillFresh(history, ev, user, k);
    }
  }

  // ----- one event after another

  /** All that is said of a user's spurts. */
  ghost predicate Tells(own: seq<Spurt>, history: seq<Event>, user: UserId) {
    Copied(own, history, user) && Divided(own, history, user) && Headed(own, history, user)
    && Finished(own, history, user)
  }

  lemma SoloCases(own: seq<Spurt>, ev: Event, user: UserId)
    ensures SoloStep(own, ev, user)
            == if !IsData(ev, user) then (if Ends(ev, user) then StopLast(own) else own)
               else if own != [] && !own[|own| - 1].stopped then own[|own| - 1 := Extend(own[|own| - 1], FragOf(ev))]
               else own + [Begin(ev)]
  {
  }

  lemma SkipTells(own: seq<Spurt>, history: seq<Event>, ev: Event, user: UserId)
    requires Tells(own, history, user) && !IsData(ev, user)
    ensures Tells(if Ends(ev, user) then StopLast(own) else own, history + [ev], user)
  {
    hide Flat, Firsts, IsData, Ends, Divided, DataAt, Copied, Headed, Finished;
    var own' := if Ends(ev, user) then StopLast(own) else own;
    FlatStop(own);
    StillDivided(own, own', history, ev, user);
    SkipCopied(own, own', history, ev, user);
    SkipHeaded(own, own', history, ev, user);
    SkipFinished(own, history, ev, user);
  }

  lemma SkipCopied(own: seq<Spurt>, own': seq<Spurt>, history: seq<Event>, ev: Event, user: UserId)
    requires Copied(own, history, user) && Flat(own') == Flat(own) && !IsData(ev, user)
    ensures Copied(own', history + [ev], user)
  {
    hide Flat, IsData, Holds;
    DataSnoc(history, ev, user);
  }

  lemma SkipHeaded(own: seq<Spurt>, own': seq<Spurt>, history: seq<Event>, ev: Event, user: UserId)
    requires Headed(own, history, user) && !IsData(ev, user)
    requires |own'| == |own| && Firsts(own') == Firsts(own)
    requires forall i :: 0 <= i < |own| ==> own'[i] == own[i] || own'[i] == own[i].(stopped := true)
    ensures Headed(own', history + [ev], user)
  {
    hide Firsts, IsData, Labelled;
    DataSnoc(history, ev, user);
    var at := DataAt(history, user);
    forall i | 0 <= i < |own'|
      ensures own'[i].frags != [] && Firsts(own')[i] < |at| && Labelled(own'[i], history[at[Firsts(own')[i]]])
    {
      StopKeepsLabel(own[i], history[at[Firsts(own)[i]]]);
    }
  }

  lemma SkipFinished(own: seq<Spurt>, history: seq<Event>, ev: Event, user: UserId)
    requires Finished(own, history, user) && !IsData(ev, user)
    ensures Finished(if Ends(ev, user) then StopLast(own) else own, history + [ev], user)
  {
    hide IsData, Ends, Cut;
    DataSnoc(history, ev, user);
    if own != [] {
      CutNow(history, ev, user, DataAt(history, user)[|DataAt(history, user)| - 1]);
    }
  }

  lemma StopKeepsLabel(s: Spurt, ev: Event)
    requires Labelled(s, ev)
    ensures Labelled(s.(stopped := true), ev)
  {
    hide IsField;
  }

  /** A fragment of this event begins a segment or not. */
  lemma NextDivided(own: seq<Spurt>, own': seq<Spurt>, history: seq<Event>, ev: Event, user: UserId, begins: bool)
    requires IsData(ev, user) && Divided(own, history, user)
    requires forall i :: 0 <= i < |own| ==> Firsts(own)[i] < |DataAt(history, user)|
    requires Firsts(own') == Firsts(own) + (if begins then [|DataAt(history, user)|] else [])
    requires var at := DataAt(history, user);
             begins <==> at == [] || Cut(history, user, at[|at| - 1], |history|)
    ensures Divided(own', history + [ev], user)
  {
    hide Firsts, IsData, Cut, DataAt, Fresh;
    var n := |DataAt(history, user)|;
    NowFresh(history, ev, user);
    forall k | 0 <= k < n + 1
      ensures k in Firsts(own') <==> Fresh(history + [ev], user, k)
    {
      if k < n {
        StillFresh(history, ev, user, k);
        KeptIn(Firsts(own), n, k);
      } else {
        NotIn(Firsts(own), n);
      }
    }
  }

  lemma KeptIn(s: seq<nat>, n: nat, k: nat)
    requires k != n
    ensures k in s + [n] <==> k in s
    ensures k in s + [] <==> k in s
  {
  }

  lemma NotIn(s: seq<nat>, n: nat)
    requires forall i :: 0 <= i < |s| ==> s[i] < n
    ensures n !in s && n !in s + [] && n in s + [n]
  {
  }

  lemma ExtendTells(own: seq<Spurt>, history: seq<Event>, ev: Event, user: UserId)
    requires Tells(own, history, user) && IsData(ev, user) && own != [] && !own[|own| - 1].stopped
    ensures Tells(own[|own| - 1 := Extend(own[|own| - 1], FragOf(ev))], history + [ev], user)
  {
    hide Flat, Firsts, Cut, Holds, IsField, FragOf, Divided, DataAt;
    var own' := own[|own| - 1 := Extend(own[|own| - 1], FragOf(ev))];
    FlatExtend(own, FragOf(ev));
    DataSnoc(history, ev, user);
    FragHolds(ev, user);
    CutNow(history, ev, user, |history|);
    NoCutYet(history, user, |history|);
    NextDivided(own, own', history, ev, user, false);
  }

  lemma BeginTells(own: seq<Spurt>, history: seq<Event>, ev: Event, user: UserId)
    requires Tells(own, history, user) && IsData(ev, user) && (own == [] || own[|own| - 1].stopped)
    ensures Tells(own + [Begin(ev)], history + [ev], user)
  {
    hide Flat, Firsts, Cut, Holds, Labelled, FragOf, Divided, DataAt, Headed;
    var own' := own + [Begin(ev)];
    FlatSnoc(own, Begin(ev));
    DataSnoc(history, ev, user);
    FragHolds(ev, user);
    CutNow(history, ev, user, |history|);
    NoCutYet(history, user, |history|);
    FirstsBelow(own, history, user);
    NextDivided(own, own', history, ev, user, true);
    BeginHeaded(own, history, ev, user);
  }

  lemma FirstsBelow(own: seq<Spurt>, history: seq<Event>, user: UserId)
    requires Headed(own, history, user)
    ensures forall i :: 0 <= i < |own| ==> Firsts(own)[i] < |DataAt(history, user)|
  {
  }

  lemma BeginHeaded(own: seq<Spurt>, history: seq<Event>, ev: Event, user: UserId)
    requires Headed(own, history, user) && IsData(ev, user) && |Flat(own)| == |DataAt(history, user)|
    ensures Headed(own + [Begin(ev)], history + [ev], user)
  {
    hide Flat, Firsts, Labelled, DataAt, FragOf;
    FlatSnoc(own, Begin(ev));
    DataSnoc(history, ev, user);
    BeginLabelled(ev, user);
  }

  lemma NoCutYet(history: seq<Event>, user: UserId, i: nat)
    requires i <= |history|
    ensures !Cut(history, user, i, i)
  {
  }

  lemma NothingTells(user: UserId)
    ensures Tells([], [], user)
  {
  }

  /** A recorder that hears one user alone keeps that user's data events, one fragment each, divided where something
      ends the recording. */
  lemma {:induction false} SoloTells(history: seq<Event>, user: UserId)
    ensures Tells(Solo(history, user), history, user)
  {
    hide Tells, SoloStep, Begin, FragOf, IsData, Ends;
    if history == [] {
      NothingTells(user);
    } else {
      var n := |history| - 1;
      var own, ev := Solo(history[..n], user), history[n];
      SoloTells(history[..n], user);
      SoloCases(own, ev, user);
      assert history[..n] + [ev] == history;
      if !IsData(ev, user) {
        SkipTells(own, history[..n], ev, user);
      } else if own != [] && !own[|own| - 1].stopped {
        ExtendTells(own, history[..n], ev, user);
      } else {
        BeginTells(own, history[..n], ev, user);
      }
    }
  }

  /** The same of the recorder that hears everybody: over every history, the segments of each user. */
  lemma RecordingTells(history: seq<Event>, user: UserId)
    ensures Tells(Of(Run(EMPTY_LOG, history).segs, user), history, user)
  {
    hide *;
    SoloTells(history, user);
    DemuxIsSolo(history, user);
  }

  // ----- what is on disk

  /** Nobody else is recorded. */
  predicate OneSpeaker(history: seq<Event>, user: UserId) {
    forall i :: 0 <= i < |history| && IsData(history[i], history[i].user) ==> history[i].user == user
  }

  /** While one user is recorded alone, everything is on disk after every event: a crash loses nothing. */
  lemma {:induction false} OneSpeakerOnDisk(history: seq<Event>, user: UserId)
    requires OneSpeaker(history, user)
    ensures var log := Run(EMPTY_LOG, history); (
              log.written == |log.segs| && forall i :: 0 <= i < |log.segs| ==> log.segs[i].user == user)
  {
    hide FragOf;
    if history != [] {
      var n := |history| - 1;
      OneSpeakerOnDisk(history[..n], user);
      RunValid(EMPTY_LOG, history[..n]);
      OneSpeakerStep(Run(EMPTY_LOG, history[..n]), history[n], user);
    }
  }

  lemma OneSpeakerStep(log: Log, ev: Event, user: UserId)
    requires log.Valid() && log.written == |log.segs|
    requires forall i :: 0 <= i < |log.segs| ==> log.segs[i].user == user
    requires IsData(ev, ev.user) ==> ev.user == user
    ensures var t := Step(log, ev); (
              t.written == |t.segs| && forall i :: 0 <= i < |t.segs| ==> t.segs[i].user == user)
  {
    hide FragOf;
    var t := Step(log, ev);
    StepValid(log, ev);
    ApplyGrows(log.segs, ev);
    AllButLast(t.segs, user, t);
  }

  lemma AllButLast(segs: seq<Spurt>, user: UserId, log: Log)
    requires log.Valid() && log.segs == segs
    requires forall i :: 0 <= i < |segs| ==> segs[i].user == user
    ensures |segs| - 1 <= LeadingStopped(segs) <= |segs|
  {
    assert forall i :: 0 <= i < |segs| - 1 ==> segs[i].user == segs[|segs| - 1].user;
    assert forall i :: 0 <= i < |segs| - 1 ==> segs[i].stopped;
  }
}
