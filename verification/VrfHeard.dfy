/** From the events to the player, without the recorder's own terms: what a user's segments play, one result for each of
    the user's data events. */
module VrfHeard {
  import opened Bytes
  import opened VrfFormat
  import opened VrfLog
  import opened VrfImage
  import opened VrfRecover
  import opened VrfRecovery
  import opened VrfReader
  import opened VrfPlayback
  import opened VrfContent

  /** The player gets what the event carried: the payload with its codec, or the text in its field of 256 bytes. */
  predicate Heard(p: Played, ev: Event)
    requires ev.data.Some?
  {
    match p
    case Sound(codec, codecformat, data) =>
      ev.kind.AudioData? && codec == ev.codec && codecformat == ev.codecformat && data == ev.data.value
    case Line(text) =>
      ev.kind.TextData? && IsField(text, ev.data.value, 256, 256)
  }

  /** The reader takes payloads of 1 to 2048 bytes. */
  predicate Admissible(ev: Event)
    requires ev.data.Some?
  {
    ev.kind.AudioData? ==> 0 < |ev.data.value| <= 2048
  }

  /** Reading segments one after another. */
  function AllRead(file: seq<byte>, places: seq<nat>): Result<seq<Played>>
    requires forall j :: 0 <= j < |places| ==> places[j] < MOD32
  {
    if places == [] then Ok([])
    else
      var n := |places| - 1;
      var front := AllRead(file, places[..n]);
      if front.Err? then front
      else
        var last := ReadSegment(file, places[n]);
        if last.Err? then last else Ok(front.value + last.value)
  }

  // ----- several segments as one list of fragments

  lemma {:induction false} PlayableConcat(a: seq<Frag>, b: seq<Frag>)
    ensures AllPlayable(a + b) <==> AllPlayable(a) && AllPlayable(b)
  {
    if a == [] {
      assert a + b == b;
    } else {
      PlayableConcat(a[1..], b);
      assert (a + b)[1..] == a[1..] + b;
    }
  }

  lemma {:induction false} PlayedConcat(a: seq<Frag>, b: seq<Frag>)
    ensures PlayedAll(a + b) == PlayedAll(a) + PlayedAll(b)
  {
    if a == [] {
      assert a + b == b;
    } else {
      PlayedConcat(a[1..], b);
      assert (a + b)[1..] == a[1..] + b;
    }
  }

  /** Where each segment plays its spurt, all of them play all fragments. */
  lemma {:induction false} ReadIsFlat(file: seq<byte>, places: seq<nat>, own: seq<Spurt>)
    requires |places| == |own|
    requires forall j :: 0 <= j < |places| ==> places[j] < MOD32
    requires forall j :: 0 <= j < |places| ==> ReadSegment(file, places[j]) == Playback(own[j].frags)
    ensures AllRead(file, places) == Playback(Flat(own))
  {
    hide ReadSegment, PlayedAll, AllPlayable;
    if places == [] {
      NothingPlayed();
    } else {
      var n := |places| - 1;
      ReadIsFlat(file, places[..n], own[..n]);
      PlayableConcat(Flat(own[..n]), own[n].frags);
      PlayedConcat(Flat(own[..n]), own[n].frags);
    }
  }

  lemma NothingPlayed()
    ensures AllPlayable([]) && PlayedAll([]) == []
  {
  }

  lemma {:induction false} PlayableIff(frags: seq<Frag>)
    ensures AllPlayable(frags) <==> forall k :: 0 <= k < |frags| ==> Playable(frags[k])
  {
    hide Playable;
    if frags != [] {
      PlayableIff(frags[1..]);
      if AllPlayable(frags) {
        forall k | 0 <= k < |frags|
          ensures Playable(frags[k])
        {
          assert k > 0 ==> frags[k] == frags[1..][k - 1];
        }
      }
    }
  }

  // ----- each fragment as its event

  lemma PlayedIsHeard(f: Frag, ev: Event)
    requires ev.data.Some? && Holds(f, ev)
    ensures Heard(PlayedOf(f), ev) && (Playable(f) <==> Admissible(ev))
  {
    hide Strncpy, CStr;
    if f.Note? {
      TextIs(f.text, ev.data.value);
      StrncpyIs(ev.data.value, 256);
    }
  }

  /** A C string and the bytes it stands in are copied alike. */
  lemma TextIs(text: seq<byte>, data: seq<byte>)
    requires IsCText(text, data)
    ensures Strncpy(text, 256) == Strncpy(data, 256)
  {
    CStrIs(data);
    CTextUnique(text, CStr(data), data);
    CStrWhole(text);
  }

  lemma CTextUnique(a: seq<byte>, b: seq<byte>, data: seq<byte>)
    requires IsCText(a, data) && IsCText(b, data)
    ensures a == b
  {
    assert forall i :: 0 <= i < |a| ==> data[i] == a[i] != 0;
    assert forall i :: 0 <= i < |b| ==> data[i] == b[i] != 0;
    assert |a| == |b|;
  }

  /** What the first fragments of a user play, as long as all of them can be played. */
  lemma FlatIsHeard(frags: seq<Frag>, history: seq<Event>, user: UserId)
    requires |frags| <= |DataAt(history, user)|
    requires forall k :: 0 <= k < |frags| ==> Holds(frags[k], history[DataAt(history, user)[k]])
    ensures Playback(frags).Ok? <==> forall k :: 0 <= k < |frags| ==> Admissible(history[DataAt(history, user)[k]])
    ensures Playback(frags).Ok? ==>
              && |Playback(frags).value| == |frags|
              && forall k :: 0 <= k < |frags| ==> Heard(Playback(frags).value[k], history[DataAt(history, user)[k]])
  {
    hide Holds, Heard, Admissible, DataAt, PlayedAll, AllPlayable, PlayedOf, Playable;
    PlayableIff(frags);
    PlayedLength(frags);
    forall k | 0 <= k < |frags|
      ensures Playable(frags[k]) <==> Admissible(history[DataAt(history, user)[k]])
      ensures Heard(PlayedAll(frags)[k], history[DataAt(history, user)[k]])
    {
      DataHasData(history, user, k);
      PlayedIsHeard(frags[k], history[DataAt(history, user)[k]]);
      PlayedAt(frags, k);
    }
  }

  lemma DataHasData(history: seq<Event>, user: UserId, k: nat)
    requires k < |DataAt(history, user)|
    ensures history[DataAt(history, user)[k]].data.Some?
  {
  }

  /** After any history without an interrupting bind and an orderly stop: if all of a user's payloads are of 1 to 2048
      bytes, the user's segments, read in the order of the table, give for the user's data events, one after another,
      exactly what each carried; and otherwise the reader refuses. */
  lemma StoppedIsHeard(boot: Header, history: seq<Event>, user: UserId)
    requires boot.Valid() && Clean(history) && VrfImage.Fits(Run(EMPTY_LOG, history).segs)
    ensures var segs, at := Run(EMPTY_LOG, history).segs, DataAt(history, user); (
              && (forall j :: 0 <= j < |Places(segs, user)| ==> Places(segs, user)[j] < MOD32)
              && var all := AllRead(FinalImage(boot, segs), Places(segs, user)); (
                && (all.Ok? <==> forall k :: 0 <= k < |at| ==> Admissible(history[at[k]]))
                && (all.Ok? ==> |all.value| == |at|
                                && forall k :: 0 <= k < |at| ==> Heard(all.value[k], history[at[k]]))))
  {
    hide Run, Clean, ReadSegment, FinalImage, Playback, Solo, Places, Flat, Holds, Heard, Admissible, DataAt, IsData,
         Divided, Headed, Finished, AllRead, VrfImage.Fits;
    var segs, own := Run(EMPTY_LOG, history).segs, Solo(history, user);
    SoloTells(history, user);
    DemuxIsSolo(history, user);
    PlacesOf(segs, user);
    forall j | 0 <= j < |own|
      ensures Places(segs, user)[j] < MOD32
      ensures ReadSegment(FinalImage(boot, segs), Places(segs, user)[j]) == Playback(own[j].frags)
    {
      RecordThenPlay(boot, history, user, j);
    }
    ReadIsFlat(FinalImage(boot, segs), Places(segs, user), own);
    FlatIsHeard(Flat(own), history, user);
  }

  // ----- after a crash

  lemma {:induction false} OfPrefix(segs: seq<Spurt>, n: nat, user: UserId)
    requires n <= |segs|
    ensures Of(segs[..n], user) <= Of(segs, user)
    decreases |segs|
  {
    if n < |segs| {
      OfPrefix(segs[..|segs| - 1], n, user);
      assert segs[..|segs| - 1][..n] == segs[..n];
    } else {
      assert segs[..n] == segs;
    }
  }

  lemma {:induction false} FlatPrefix(a: seq<Spurt>, b: seq<Spurt>)
    requires a <= b
    ensures Flat(a) <= Flat(b)
    decreases |b|
  {
    if |a| < |b| {
      FlatPrefix(a, b[..|b| - 1]);
    } else {
      assert a == b;
    }
  }

  /** The first segments hold, of each user, the first data events. */
  lemma FirstSegments(history: seq<Event>, user: UserId, n: nat)
    requires n <= |Run(EMPTY_LOG, history).segs|
    ensures var frags, at := Flat(Of(Run(EMPTY_LOG, history).segs[..n], user)), DataAt(history, user); (
              |frags| <= |at| && forall k :: 0 <= k < |frags| ==> Holds(frags[k], history[at[k]]))
  {
    hide Run, Flat, Of, Holds, IsData, DataAt, Divided, Headed, Finished;
    var segs := Run(EMPTY_LOG, history).segs;
    RecordingTells(history, user);
    OfPrefix(segs, n, user);
    FlatPrefix(Of(segs[..n], user), Of(segs, user));
  }

  lemma RecoveredReads(boot: Header, history: seq<Event>, user: UserId)
    requires boot.Valid() && boot.headid == TEMP_ID && Clean(history) && VrfImage.Fits(Run(EMPTY_LOG, history).segs)
    ensures var log := Run(EMPTY_LOG, history); (
              && log.written <= |log.segs| && Recover(CrashImage(boot, log)).Ok?
              && var kept := log.segs[..log.written]; (
                && (forall j :: 0 <= j < |Places(kept, user)| ==> Places(kept, user)[j] < MOD32)
                && AllRead(Recover(CrashImage(boot, log)).value, Places(kept, user)) == Playback(Flat(Of(kept, user)))))
  {
    hide Run, Clean, ReadSegment, Recover, CrashImage, Playback, Places, Flat, AllRead, VrfImage.Fits, Of;
    var log := Run(EMPTY_LOG, history);
    RunValid(EMPTY_LOG, history);
    CrashKeepsPrefix(boot, history);
    var kept := log.segs[..log.written];
    var places := Places(kept, user);
    PlacesOf(kept, user);
    forall j | 0 <= j < |places|
      ensures places[j] < MOD32
      ensures ReadSegment(Recover(CrashImage(boot, log)).value, places[j]) == Playback(Of(kept, user)[j].frags)
    {
      CrashThenPlay(boot, history, places[j]);
    }
    ReadIsFlat(Recover(CrashImage(boot, log)).value, places, Of(kept, user));
  }

  /** After a crash in a history without an interrupting bind: the recovered file holds, of each user, the segments that
      had reached the disk, and they give the first data events of the user, exactly as they were. */
  lemma RecoveredIsHeard(boot: Header, history: seq<Event>, user: UserId)
    requires boot.Valid() && boot.headid == TEMP_ID && Clean(history) && VrfImage.Fits(Run(EMPTY_LOG, history).segs)
    ensures var log, at := Run(EMPTY_LOG, history), DataAt(history, user); (
              && log.written <= |log.segs| && Recover(CrashImage(boot, log)).Ok?
              && var kept := log.segs[..log.written]; (
                && (forall j :: 0 <= j < |Places(kept, user)| ==> Places(kept, user)[j] < MOD32)
                && var n, all := |Flat(Of(kept, user))|,
                                 AllRead(Recover(CrashImage(boot, log)).value, Places(kept, user)); (
                  && n <= |at|
                  && (all.Ok? <==> forall k :: 0 <= k < n ==> Admissible(history[at[k]]))
                  && (all.Ok? ==> |all.value| == n && forall k :: 0 <= k < n ==> Heard(all.value[k], history[at[k]])))))
  {
    hide Run, Clean, Recover, CrashImage, Playback, Places, Flat, Holds, Heard, Admissible, DataAt, IsData, AllRead,
         VrfImage.Fits, Of;
    var log := Run(EMPTY_LOG, history);
    RecoveredReads(boot, history, user);
    FirstSegments(history, user, log.written);
    FlatIsHeard(Flat(Of(log.segs[..log.written], user)), history, user);
  }
}
