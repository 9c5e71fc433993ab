/** From the events to the player: what reading a recording gives, over whole histories. */
module VrfPlayback {
  import opened Bytes
  import opened VrfFormat
  import opened VrfLog
  import opened VrfImage
  import opened VrfRecover
  import opened VrfRecovery
  import opened VrfReader
  import VrfInterrupt

  // ----- every user's spurts come back

  /** The segments of one user, in the order of the table. */
  function Places(segs: seq<Spurt>, user: UserId): (ps: seq<nat>)
    ensures forall j :: 0 <= j < |ps| ==> ps[j] < |segs|
  {
    if segs == [] then []
    else
      var n := |segs| - 1;
      Places(segs[..n], user) + (if segs[n].user == user then [n] else [])
  }

  /** They hold the user's spurts, in their order, and all of them. */
  lemma {:induction false} PlacesOf(segs: seq<Spurt>, user: UserId)
    ensures var ps := Places(segs, user); (
              && |ps| == |Of(segs, user)|
              && (forall j :: 0 <= j < |ps| ==> segs[ps[j]] == Of(segs, user)[j])
              && (forall i, j :: 0 <= i < j < |ps| ==> ps[i] < ps[j])
              && (forall k :: 0 <= k < |segs| && segs[k].user == user ==> k in ps))
  {
    if segs != [] {
      var n := |segs| - 1;
      PlacesOf(segs[..n], user);
      var earlier := Places(segs[..n], user);
      assert forall k :: 0 <= k < n && segs[k].user == user ==> segs[..n][k].user == user;
      assert forall k :: k in earlier ==> k in Places(segs, user);
    }
  }

  /** After any history without an interrupting bind and an orderly stop, the user's segments, read in the order of the
      table, give the payloads of the spurts that a recorder of this user alone would have kept, one segment for each
      spurt; a spurt with an inadmissible payload is refused. */
  lemma RecordThenPlay(boot: Header, history: seq<Event>, user: UserId, j: nat)
    requires boot.Valid() && Clean(history)
    requires Fits(Run(EMPTY_LOG, history).segs)
    requires j < |Solo(history, user)|
    ensures var segs := Run(EMPTY_LOG, history).segs; (
              && |Places(segs, user)| == |Solo(history, user)|
              && Places(segs, user)[j] < MOD32
              && ReadSegment(FinalImage(boot, segs), Places(segs, user)[j]) == Playback(Solo(history, user)[j].frags))
  {
    hide Run, Clean, Uniform, ReadSegment, FinalImage, Playback, Solo, Of, Size;
    var segs := Run(EMPTY_LOG, history).segs;
    DemuxIsSolo(history, user);
    PlacesOf(segs, user);
    CleanUniform(history);
    SizePrefix(segs, 0);
    ReadBack(boot, segs, Places(segs, user)[j]);
  }

  /** The same after a crash, for the segments that had reached the file. */
  lemma CrashThenPlay(boot: Header, history: seq<Event>, k: nat)
    requires boot.Valid() && boot.headid == TEMP_ID && Clean(history)
    requires Fits(Run(EMPTY_LOG, history).segs)
    requires k < Run(EMPTY_LOG, history).written
    ensures var log, r := Run(EMPTY_LOG, history), Recover(CrashImage(boot, Run(EMPTY_LOG, history))); (
              && r.Ok? && log.written <= |log.segs| && k < MOD32
              && ReadSegment(r.value, k) == Playback(log.segs[k].frags))
  {
    hide Run, Clean, Uniform, ReadSegment, FinalImage, Playback, Size, Recover, CrashImage;
    var log := Run(EMPTY_LOG, history);
    RunValid(EMPTY_LOG, history);
    CrashKeepsPrefix(boot, history);
    CleanUniform(history);
    PrefixFits(log.segs, log.written);
    SizePrefix(log.segs, 0);
    assert log.segs[..log.written][k] == log.segs[k];
    ReadBack(boot, log.segs[..log.written], k);
  }

  // ----- an interrupted segment

  /** The note of an interrupted segment as the player takes it: a sound whose length is the note's time, made of the
      text from its seventeenth byte on and of whatever follows in the file. */
  function NoteAsSound(file: seq<byte>, off: nat, note: Frag): Result<Played>
    requires note.Note?
  {
    var text := Strncpy(note.text, TEXT_LEN);
    var start := off + FRAGMENT_LEN;
    if note.time == 0 || note.time > MAX_FRAGLEN then Err(Malformed)
    else if start + note.time > |file| then Err(Eof)
    else Ok(Sound(Get16(text[8..10]), Get16(text[10..12]), file[start..start + note.time]))
  }

  lemma HeadOfNote(a: u32, b: u32, text: seq<byte>)
    requires |text| == 16
    ensures var head := GetFrag(PutWords([a, b]) + text); (
              && head.headlen == a && head.fraglen == b
              && head.codec == Get16(text[8..10]) && head.codecformat == Get16(text[10..12]))
  {
    hide PutWords, GetWords, Get16;
    TwoWords(a, b, text);
    var s := PutWords([a, b]) + text;
    assert s[16..18] == text[8..10] && s[18..20] == text[10..12];
  }

  lemma PlayNote(file: seq<byte>, header: Header, off: nat, note: Frag)
    requires note.Note? && At(file, off, PutFragment(note))
    ensures GetAll(file, header, TYPE_EXT, off, 1)
         == if NoteAsSound(file, off, note).Err? then Err(NoteAsSound(file, off, note).error)
            else Ok([NoteAsSound(file, off, note).value])
  {
    hide GetFrag, Get32, Get16, Strncpy, PutWords;
    VrfInterrupt.NoteShape(note);
    var bs := PutWords([TEXT_HEAD, note.time]);
    var text := Strncpy(note.text, TEXT_LEN);
    var head := file[off..off + FRAGMENT_LEN];
    AtParts(file, off, bs, text);
    assert head == bs + text[..16];
    assert head + Zeros(0) == head;
    HeadOfNote(TEXT_HEAD, note.time, text[..16]);
    assert text[..16][8..10] == text[8..10] && text[..16][10..12] == text[10..12];
    assert GetFragment(file, TYPE_EXT, off) == Ok(Found(GetFrag(head), FRAGMENT_LEN, note.time));
    var one := GetPlayed(file, header, TYPE_EXT, off);
    if one.Ok? {
      assert GetAll(file, header, TYPE_EXT, one.value.next, 0) == Ok([]);
      assert [one.value.played] + [] == [one.value.played];
    }
  }

  /** Reading a talk spurt that a note ended, in a recording that was stopped in order: all its voice, and then the note
      as a sound, or an error that refuses the segment's end. */
  lemma ReadInterrupted(boot: Header, segs: seq<Spurt>, k: nat, s: Spurt, note: Frag)
    requires boot.Valid() && Fits(segs) && k < |segs| < MOD32
    requires Uniform(s) && s.kind.Ext? && note.Note? && segs[k] == Extend(s, note)
    ensures var file, off := FinalImage(boot, segs), OffsetOf(segs, k);
            var sound := NoteAsSound(file, VrfInterrupt.NoteAt(s, off), note); (
              ReadSegment(file, k)
              == if !AllPlayable(s.frags) then Err(Malformed)
                 else if sound.Err? then Err(sound.error)
                 else Ok(PlayedAll(s.frags) + [sound.value]))
  {
    hide FinalImage, ReadSegment, GetAll, FinalHeader, AllPlayable, PutFragments, PlayedAll, Size, At, PutFragment,
         Uniform, NoteAsSound, OffsetOf, Fits;
    var file, off := FinalImage(boot, segs), OffsetOf(segs, k);
    ReadSegmentIs(boot, segs, k);
    SpurtAt(boot, segs, k);
    PutFragmentsSnoc(s.frags, note);
    AtParts(file, off + 64, PutFragments(s.frags), PutFragment(note));
    PlayRest(file, FinalHeader(boot, segs), off + 64, s, 0, 1);
    NothingBefore(s.frags);
    assert s.frags[0..] == s.frags;
    PlayNote(file, FinalHeader(boot, segs), off + 64 + |PutFragments(s.frags)|, note);
  }
}
