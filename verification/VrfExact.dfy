/** When crash recovery equals an orderly stop: the exact condition, over every history of events. */
module VrfExact {
  import opened Bytes
  import opened VrfFormat
  import opened VrfLog
  import opened VrfImage
  import opened VrfRecover
  import opened VrfRecovery
  import opened VrfInterrupt

  // ----- the offsets that a scan writes down

  /** Entries keep their offsets, and every later one stands at or behind the place where the scan goes on. */
  predicate Onward(r: seq<Segment>, table: seq<Segment>, off: nat) {
    && |table| <= |r|
    && (forall i :: 0 <= i < |table| ==> r[i].offset == table[i].offset)
    && (forall i :: |table| <= i < |r| ==> off <= r[i].offset)
  }

  lemma OnwardAudio(r: seq<Segment>, table: seq<Segment>, g: Segment, off: nat, next: nat)
    requires Onward(r, table + [g], next) && off <= next && g.offset == off
    ensures Onward(r, table, off)
  {
    forall i | 0 <= i < |table|
      ensures r[i].offset == table[i].offset
    {
      assert (table + [g])[i] == table[i];
    }
    assert (table + [g])[|table|] == g;
  }

  lemma OnwardFragment(r: seq<Segment>, table: seq<Segment>, head: FragHead, off: nat, next: nat)
    requires table != [] && Onward(r, table[|table| - 1 := Tally(table[|table| - 1], head)], next) && off <= next
    ensures Onward(r, table, off)
  {
    var last := |table| - 1;
    var more := table[last := Tally(table[last], head)];
    forall i | 0 <= i < |table|
      ensures r[i].offset == table[i].offset
    {
      assert more[i].offset == table[i].offset;
    }
  }

  lemma {:induction false} ScanOnward(file: seq<byte>, off: nat, table: seq<Segment>)
    requires Scan(file, off, table).Ok?
    ensures Onward(Scan(file, off, table).value, table, off)
    decreases |file| - off
  {
    hide Word, GetFragment, Tally, Onward;
    if off + 4 >= |file| {
      OnwardSame(table, off);
    } else if Word(file, off) == AUDIO_HEAD {
      ScanOnward(file, off + AUDIO_HEAD, table + [NewEntry(file, off)]);
      OnwardAudio(Scan(file, off, table).value, table, NewEntry(file, off), off, off + AUDIO_HEAD);
    } else {
      var last := |table| - 1;
      var found := GetFragment(file, table[last].kind, off).value;
      var next := off + found.headlen + found.datalen;
      ScanOnward(file, next, table[last := Tally(table[last], found.head)]);
      OnwardFragment(Scan(file, off, table).value, table, found.head, off, next);
    }
  }

  lemma OnwardSame(table: seq<Segment>, off: nat)
    ensures Onward(table, table, off)
  {
  }

  // ----- what a finished file tells

  lemma PatchKeepsLength(file: seq<byte>, g: Segment)
    ensures |PatchOne(file, g)| == |file|
  {
  }

  lemma {:induction false} PatchedLength(file: seq<byte>, table: seq<Segment>, n: nat)
    requires n <= |table|
    ensures |PatchFirst(file, table, n)| == |file|
  {
    hide PatchOne;
    if n > 0 {
      PatchedLength(file, table, n - 1);
      PatchKeepsLength(PatchFirst(file, table, n - 1), table[n - 1]);
    }
  }

  /** Its header names the place of the table, and the table is its end. */
  lemma FinishParts(file: seq<byte>, header: Header, table: seq<byte>)
    requires header.Valid() && HEADER_LEN <= |file| < MOD32
    ensures var r := FinishFile(file, header, table); (
              && |r| == |file| + |table| && r[|file|..] == table
              && GetHeader(r[..HEADER_LEN]).segtable == |file|)
  {
    hide PutHeader, GetHeader, WriteAt;
    var tabled := if table != [] then WriteAt(file, |file|, table) else file;
    WriteAtEnd(file, table);
    assert file + [] == file;
    assert tabled == file + table;
    var last := header.(segtable := |file|, headid := HEAD_ID, size := Wrap32(|tabled|));
    TailStays(file, table, PutHeader(last));
    WriteStart(file + table, PutHeader(last));
    GetHeaderPutHeader(last);
  }

  lemma WriteStart(file: seq<byte>, bs: seq<byte>)
    requires |bs| <= |file|
    ensures WriteAt(file, 0, bs)[..|bs|] == bs
  {
  }

  lemma ImageParts(boot: Header, segs: seq<Spurt>)
    requires boot.Valid() && Fits(segs)
    ensures var r, end := FinalImage(boot, segs), HEADER_LEN + Size(segs); (
              && |r| == end + |Table(segs)| && r[end..] == Table(segs)
              && GetHeader(r[..HEADER_LEN]).segtable == end)
  {
    hide PutHeader, GetHeader, Bodies, Table, Size;
    var r := FinalImage(boot, segs);
    assert r[..HEADER_LEN] == PutHeader(FinalHeader(boot, segs));
    GetHeaderPutHeader(FinalHeader(boot, segs));
  }

  lemma FinishedIsImage(file: seq<byte>, header: Header, table: seq<byte>, boot: Header, segs: seq<Spurt>)
    requires header.Valid() && boot.Valid() && HEADER_LEN <= |file| < MOD32 && Fits(segs)
    requires FinishFile(file, header, table) == FinalImage(boot, segs)
    ensures |file| == HEADER_LEN + Size(segs) && table == Table(segs)
  {
    hide FinishFile, FinalImage, Table, Size, GetHeader;
    FinishParts(file, header, table);
    ImageParts(boot, segs);
  }

  lemma {:induction false} PutTableLength(table: seq<Segment>)
    ensures |PutTable(table)| == 64 * |table|
  {
    hide PutSegment;
    if table != [] {
      PutTableLength(table[..|table| - 1]);
    }
  }

  lemma {:induction false} SameOffsets(table: seq<Segment>, segs: seq<Spurt>, k: nat)
    requires PutTable(table) == Table(segs) && |table| == |segs| && k < |segs|
    ensures table[k].offset == Wrap32(OffsetOf(segs, k))
  {
    hide PutSegment, Size, TimeOf, LastTime;
    var n := |segs| - 1;
    var g := table[n].(unknown1 := 0);
    var e := Entry(segs[n].kind, segs[n].name, segs[n].frags, OffsetOf(segs, n));
    PutTableLength(table[..n]);
    SameParts(PutTable(table[..n]), PutSegment(g), Table(segs[..n]), PutSegment(e));
    GetSegmentPutSegment(g);
    GetSegmentPutSegment(e);
    if k < n {
      SameOffsets(table[..n], segs[..n], k);
      assert segs[..n][..k] == segs[..k];
    }
  }

  // ----- a segment that does not pass

  /** The scan leaves out the record behind a bind that does not pass, so no table it builds is right. */
  lemma ScanMisses(file: seq<byte>, segs: seq<Spurt>, done: nat, i: nat)
    requires AllShaped(segs) && i + 1 < |segs| && Interrupted(segs[i]) && 240 < NoteOf(segs[i]).time
    requires AllShaped(segs[..i]) && At(file, HEADER_LEN, Bodies(segs, done)) && |file| < MOD32
    requires Scan(file, HEADER_LEN, []) == Scan(file, OffsetOf(segs, i), Reread(segs[..i]))
    requires Scan(file, HEADER_LEN, []).Ok?
    ensures var table := Scan(file, HEADER_LEN, []).value;
            i + 1 < |table| ==> OffsetOf(segs, i + 1) < table[i + 1].offset
  {
    hide Scan, Bodies, Body, Reread, Size, AllShaped, Uniform, At, NoteAt, BodySize, Misread, Shown, PutFragment;
    BodyAt(file, segs, done, i);
    var off := OffsetOf(segs, i);
    ScanTalk(file, off, Reread(segs[..i]), i, segs[i], Shown(segs[i], i, done));
    RereadSnoc(segs, i);
    var next := NoteAt(TalkOf(segs[i]), off) + FRAGMENT_LEN + NoteOf(segs[i]).time;
    ScanOnward(file, next, Reread(segs[..i]) + [Misread(TalkOf(segs[i]), off, NoteOf(segs[i]))]);
  }

  /** A recovered file that is a stopped one: same place and bytes of the table. */
  lemma RecoveredIsImage(boot: Header, file: seq<byte>, segs: seq<Spurt>)
    requires boot.Valid() && boot.headid == TEMP_ID && Fits(segs) && HEADER_LEN <= |file| < MOD32
    requires GetHeader(file[..HEADER_LEN]) == boot && Recover(file) == Ok(FinalImage(boot, segs))
    ensures var scan := Scan(file, HEADER_LEN, []); (
              && |file| == HEADER_LEN + Size(segs)
              && scan.Ok? && PutTable(scan.value) == Table(segs) && |scan.value| == |segs|)
  {
    hide Scan, PatchFirst, PutTable, FinishFile, GetHeader, FinalImage, Table, Size, Fits;
    var table := Scan(file, HEADER_LEN, []).value;
    PatchedLength(file, table, |table|);
    FinishedIsImage(PatchFirst(file, table, |table|), boot.(segcount := Wrap32(|table|)), PutTable(table), boot, segs);
    PutTableLength(table);
  }

  lemma {:induction false} FirstStuck(segs: seq<Spurt>, n: nat) returns (i: nat)
    requires AllShaped(segs) && n < |segs| && !PassesIn(segs, n)
    ensures i < |segs| && !PassesIn(segs, i) && forall k :: 0 <= k < i ==> PassesIn(segs, k)
    decreases n
  {
    hide AllShaped, PassesIn;
    if k :| 0 <= k < n && !PassesIn(segs, k) {
      i := FirstStuck(segs, k);
    } else {
      i := n;
    }
  }

  /** If recovery gives the file of an orderly stop, every segment on disk passes. */
  lemma {:induction false} MustPass(boot: Header, log: Log)
    requires boot.Valid() && boot.headid == TEMP_ID && log.Valid()
    requires var segs := log.segs[..log.written]; (
               AllShaped(segs) && Fits(segs) && Recover(CrashImage(boot, log)) == Ok(FinalImage(boot, segs)))
    ensures AllPass(log.segs[..log.written])
  {
    hide Scan, Recover, Bodies, PutHeader, GetHeader, Reread, Table, PutTable, FinalImage, Size, AllShaped, PassesIn,
         Fits, Interrupted, NoteAt, At;
    var segs := log.segs[..log.written];
    if !AllPass(segs) {
      var n :| 0 <= n < |segs| && !PassesIn(segs, n);
      var i := FirstStuck(segs, n);
      var file := CrashImage(boot, log);
      ShapedParts(segs, i);
      CrashFile(boot, segs, log.Done(), i);
      RecoveredIsImage(boot, file, segs);
      StuckIsInterrupted(segs, i);
      RecoverStuck(boot, log, i);
      ScanMisses(file, segs, log.Done(), i);
      SameOffsets(Scan(file, HEADER_LEN, []).value, segs, i + 1);
      OffsetFits(segs, i + 1);
    }
  }

  /** What does not pass, and is not refused either. */
  lemma StuckIsInterrupted(segs: seq<Spurt>, i: nat)
    requires AllShaped(segs) && i < |segs| && !PassesIn(segs, i)
    ensures Interrupted(segs[i])
    ensures NoteOf(segs[i]).time < 236
         || (NoteOf(segs[i]).time < 240 && i + 1 < |segs|)
         || NoteAt(TalkOf(segs[i]), OffsetOf(segs, i)) + FRAGMENT_LEN + NoteOf(segs[i]).time >= MOD32
         || (i + 1 < |segs| && 240 < NoteOf(segs[i]).time)
  {
    hide Uniform, NoteAt, Size;
  }

  lemma OffsetFits(segs: seq<Spurt>, i: nat)
    requires i < |segs| && Fits(segs)
    ensures Wrap32(OffsetOf(segs, i)) == OffsetOf(segs, i)
  {
    hide Size;
    SizePrefix(segs, i);
  }

  // ----- over all histories

  lemma WholeSize(segs: seq<Spurt>, n: nat)
    requires n <= |segs| && Size(segs[..n]) == Size(segs)
    ensures n == |segs|
  {
    hide Size;
    if n < |segs| {
      OffsetInside(segs, n);
    }
  }

  /** After any history: recovery finishes exactly the segments that reached the disk if and only if all of them pass
      and all their entries are right, and it equals an orderly stop if and only if, besides, nothing was waiting in
      memory. */
  lemma RecoveryExactly(boot: Header, history: seq<Event>)
    requires boot.Valid() && boot.headid == TEMP_ID && Fits(Run(EMPTY_LOG, history).segs)
    ensures var log := Run(EMPTY_LOG, history);
            var r := Recover(CrashImage(boot, log)); (
              && log.written <= |log.segs| && AllShaped(log.segs) && AllShaped(log.segs[..log.written])
              && (r == Ok(FinalImage(boot, log.segs[..log.written]))
                  <==> AllPass(log.segs[..log.written]) && AllRepeat(log.segs[..log.written]))
              && (r == Ok(FinalImage(boot, log.segs))
                  <==> log.written == |log.segs| && AllPass(log.segs) && AllRepeat(log.segs)))
  {
    hide Run, Recover, Fits, AllShaped, AllPass, AllRepeat, FinalImage, Bodies, PutHeader, GetHeader, Size;
    var log := Run(EMPTY_LOG, history);
    RunValid(EMPTY_LOG, history);
    RunShaped(history);
    var segs := log.segs[..log.written];
    ShapedParts(log.segs, log.written);
    PrefixFits(log.segs, log.written);
    if AllPass(segs) {
      RecoverPassing(boot, log);
    }
    var r := Recover(CrashImage(boot, log));
    if r == Ok(FinalImage(boot, segs)) {
      MustPass(boot, log);
    }
    if log.written == |log.segs| {
      assert segs == log.segs;
    } else if r == Ok(FinalImage(boot, log.segs)) {
      NothingShaped(segs);
      CrashFile(boot, segs, log.Done(), 0);
      RecoveredIsImage(boot, CrashImage(boot, log), log.segs);
      WholeSize(log.segs, log.written);
    }
  }

  lemma NothingShaped(segs: seq<Spurt>)
    ensures AllShaped(segs[..0])
  {
  }

  /** After any history: the first segment on disk that was interrupted decides. If its bind came before 236
      milliseconds, or before 240 with more segments behind it, the file is refused. */
  lemma EarlyBindRefused(boot: Header, history: seq<Event>, i: nat)
    requires boot.Valid() && boot.headid == TEMP_ID && Fits(Run(EMPTY_LOG, history).segs)
    requires var log := Run(EMPTY_LOG, history); (
               && i < log.written <= |log.segs| && AllUniform(log.segs[..i]) && !Uniform(log.segs[i])
               && log.segs[i].frags != []
               && (NoteOf(log.segs[i]).time < 236 || (NoteOf(log.segs[i]).time < 240 && i + 1 < log.written)))
    ensures Recover(CrashImage(boot, Run(EMPTY_LOG, history))) == Err(UnknownHeader)
  {
    hide Run, Recover, Fits, AllShaped, CrashImage, Uniform, PassesIn, NoteOf, Interrupted;
    var log := Run(EMPTY_LOG, history);
    RunShaped(history);
    ShapedParts(log.segs, log.written);
    PrefixFits(log.segs, log.written);
    var segs := log.segs[..log.written];
    forall k | 0 <= k < i
      ensures PassesIn(segs, k)
    {
      assert Uniform(log.segs[..i][k]);
      UniformPasses(segs, k);
    }
    NotUniform(segs, i);
    RecoverStuck(boot, log, i);
  }

  lemma UniformPasses(segs: seq<Spurt>, k: nat)
    requires AllShaped(segs) && k < |segs| && Uniform(segs[k])
    ensures PassesIn(segs, k)
  {
    hide Uniform, AllShaped;
  }

  lemma NotUniform(segs: seq<Spurt>, i: nat)
    requires AllShaped(segs) && i < |segs| && !Uniform(segs[i])
    ensures Interrupted(segs[i])
  {
    hide Uniform, Interrupted;
  }

  // ----- the shortest such recording

  lemma PairLog(voice: Event, text: Event)
    requires voice.kind.AudioData? && voice.name.Some? && voice.data.Some?
    requires text.kind.TextData? && text.name.Some? && text.data.Some? && text.user == voice.user
    ensures Run(EMPTY_LOG, [voice, text]) == Log([Extend(Begin(voice), FragOf(text))], 1)
  {
    hide CStr, NameField, FindOpen, LeadingStopped;
    assert [voice, text][..1] == [voice] && [voice][..0] == [];
    var one := [Begin(voice)];
    assert FindOpen([], voice.user) == 0;
    assert [] + one == one;
    LeadingStoppedUnique([], 0);
    LeadingStoppedUnique(one, 0);
    assert Step(EMPTY_LOG, voice) == Log(one, 1);
    FindOpenUnique(one, text.user, 0);
    var s := Extend(Begin(voice), FragOf(text));
    assert one[0 := s] == [s];
    LeadingStoppedUnique([s], 1);
    assert Step(Log(one, 1), text) == Log([s], 1);
    assert Run(EMPTY_LOG, []) == EMPTY_LOG;
    assert Run(EMPTY_LOG, [voice]) == Log(one, 1);
  }

  lemma PairParts(voice: Event, text: Event)
    requires voice.kind.AudioData? && voice.name.Some? && voice.data.Some?
    requires text.kind.TextData? && text.data.Some?
    ensures var t := Extend(Begin(voice), FragOf(text)); (
              && Interrupted(t) && TalkOf(t).frags == [FragOf(voice)] && NoteOf(t) == FragOf(text)
              && TimeOf([FragOf(voice)]) == voice.time
              && |PutFragments([FragOf(voice)])| == FRAGMENT_LEN + |voice.data.value|)
  {
    hide CStr, NameField, PutFrag;
    var f := FragOf(voice);
    var t := Extend(Begin(voice), FragOf(text));
    assert t.frags[..1] == [f] && [f][..0] == [];
    TimesSnoc([], f);
    assert [] + [f] == [f];
    PutFragmentsSnoc([], f);
  }

  /** One voice packet and a text bind: recovery equals an orderly stop if and only if the bind comes 236 milliseconds
      or more into the recording, its text repeats that time, and the voice came at time 0 or at the same time. */
  lemma InterruptedPair(boot: Header, voice: Event, text: Event)
    requires boot.Valid() && boot.headid == TEMP_ID
    requires voice.kind.AudioData? && voice.name.Some? && voice.data.Some?
    requires text.kind.TextData? && text.name.Some? && text.data.Some? && text.user == voice.user
    requires Fits(Run(EMPTY_LOG, [voice, text]).segs)
    ensures var log := Run(EMPTY_LOG, [voice, text]); (
              && log.written <= |log.segs|
              && (Recover(CrashImage(boot, log)) == Ok(FinalImage(boot, log.segs)) <==>
                  && 236 <= text.time
                  && HEADER_LEN + AUDIO_HEAD + FRAGMENT_LEN + |voice.data.value| + FRAGMENT_LEN + text.time < MOD32
                  && TextWord(text.data.value) == text.time
                  && (voice.time == 0 || voice.time == text.time)))
  {
    hide Recover, Fits, FinalImage, CrashImage, CStr, NameField, TimeOf, PutFragments, Run, Get32, Uniform, Extend,
         Begin, Interrupted, TalkOf, NoteOf, BodySize;
    var log := Run(EMPTY_LOG, [voice, text]);
    var t := Extend(Begin(voice), FragOf(text));
    PairLog(voice, text);
    PairParts(voice, text);
    NotBoth(t);
    assert log.segs[..1] == log.segs == [t] && [t][..0] == [];
    RecoveryExactly(boot, [voice, text]);
    RecoverStuck(boot, log, 0);
    FitsOne(t, FragOf(text));
    CStrIdempotent(text.data.value);
  }

  /** A passing note of 240 milliseconds never wraps. */
  lemma FitsOne(t: Spurt, note: Frag)
    requires Fits([t]) && Interrupted(t) && NoteOf(t) == note
    ensures OffsetOf([t], 0) == HEADER_LEN
    ensures note.time == 240 ==> NoteAt(TalkOf(t), HEADER_LEN) + FRAGMENT_LEN + note.time < MOD32
  {
    hide Uniform, PutFragments, PutFragment;
    assert [t][..0] == [];
    assert t.frags == TalkOf(t).frags + [note];
    PutFragmentsSnoc(TalkOf(t).frags, note);
    NoteShape(note);
  }
}
