/** Crash recovery against the recorder: the file that recovery builds is the file an orderly stop would have built. */
module VrfRecovery {
  import opened Bytes
  import opened VrfFormat
  import opened VrfLog
  import opened VrfImage
  import opened VrfRecover

  // ----- which recordings a scan can read back

  /** All fragments of a spurt are of the kind that its audio record announces. It fails only for a user whose text
      arrived while that user was talking. */
  predicate Uniform(s: Spurt) {
    && s.name[NAME_LEN - 1] == 0
    && s.frags != []
    && forall i :: 0 <= i < |s.frags| ==> s.frags[i].Note? == s.kind.Text?
  }

  predicate AllUniform(segs: seq<Spurt>) {
    forall i :: 0 <= i < |segs| ==> Uniform(segs[i])
  }

  // ----- one spurt

  /** What the scan holds after the audio record and the first fragments. */
  function Partial(s: Spurt, off: nat, frags: seq<Frag>): Segment {
    Segment(SEGMENT_LEN, KindCode(s.kind), if frags == [] then 0 else 1, Wrap32(off), TimeOf(frags),
            Wrap32(LastTime(frags) - TimeOf(frags)), Wrap32(|frags|), 0, s.name)
  }

  lemma FragmentRead(file: seq<byte>, off: nat, f: Frag)
    requires At(file, off, PutFragment(f))
    ensures off + 4 < |file|
    ensures Word(file, off) == if f.Note? then TEXT_HEAD else FRAGMENT_LEN
    ensures var kind := if f.Note? then TYPE_TEXT else TYPE_EXT;
            var found := GetFragment(file, kind, off); (
              && found.Ok?
              && found.value.headlen + found.value.datalen == |PutFragment(f)|
              && (if f.Note? then found.value.head.fraglen else found.value.head.unknown1) == f.time)
  {
    match f
    case Voice(time, pcmlen, codec, codecformat, payload) =>
      VoiceRead(file, off, FragHead(FRAGMENT_LEN, |payload|, pcmlen, time, codec, codecformat, 0), payload);
    case Note(time, text) =>
      NoteRead(file, off, time, Strncpy(text, TEXT_LEN));
  }

  lemma VoiceRead(file: seq<byte>, off: nat, head: FragHead, payload: blob)
    requires head.headlen == FRAGMENT_LEN && head.fraglen == |payload|
    requires At(file, off, PutFrag(head) + payload)
    ensures off + FRAGMENT_LEN <= |file| && Word(file, off) == FRAGMENT_LEN
    ensures GetFragment(file, TYPE_EXT, off) == Ok(Found(head, FRAGMENT_LEN, |payload|))
  {
    hide PutFrag, GetFrag, Get32;
    AtParts(file, off, PutFrag(head), payload);
    var bs := PutFrag(head);
    assert file[off..off + FRAGMENT_LEN] == bs;
    assert file[off..off + 4] == bs[..4];
    assert bs + Zeros(0) == bs;
    GetFragPutFrag(head);
  }

  lemma NoteRead(file: seq<byte>, off: nat, time: u32, text: seq<byte>)
    requires |text| == TEXT_LEN
    requires At(file, off, PutWords([TEXT_HEAD, time]) + text)
    ensures off + 8 <= |file| && Word(file, off) == TEXT_HEAD
    ensures var found := GetFragment(file, TYPE_TEXT, off); (
              && found.Ok? && found.value.headlen == 8 && found.value.datalen == TEXT_LEN
              && found.value.head.fraglen == time)
  {
    var bs := PutWords([TEXT_HEAD, time]);
    AtParts(file, off, bs, text);
    assert file[off..off + 8] == bs;
    TwoWords(TEXT_HEAD, time, Zeros(16));
    assert file[off..off + 4] == bs[..4];
    FirstWord([TEXT_HEAD, time], Zeros(16));
    assert (bs + Zeros(16))[..4] == bs[..4];
  }

  lemma TwoWords(a: u32, b: u32, rest: seq<byte>)
    requires |rest| == 16
    ensures var head := GetFrag(PutWords([a, b]) + rest); head.headlen == a && head.fraglen == b
  {
    var s := PutWords([a, b]) + rest;
    var t := s[..16];
    assert [a, b][1..] == [b] && [b][1..] == [];
    assert PutWords([a, b]) == Put32(a) + (Put32(b) + PutWords([]));
    assert t[..4] == Put32(a);
    assert t[4..][..4] == Put32(b);
    Get32Put32(a);
    Get32Put32(b);
    assert GetWords(t)[1] == GetWords(t[4..])[0];
  }

  lemma TallyPartial(s: Spurt, off: nat, k: nat, head: FragHead)
    requires Uniform(s) && k < |s.frags|
    requires s.frags[k].time == if s.kind.Text? then head.fraglen else head.unknown1
    ensures Tally(Partial(s, off, s.frags[..k]), head) == Partial(s, off, s.frags[..k + 1])
  {
    hide TimeOf, LastTime;
    var frags := s.frags[..k];
    assert s.frags[..k + 1] == frags + [s.frags[k]];
    TimesSnoc(frags, s.frags[k]);
    ZeroSoFar(frags);
    if s.kind.Text? {
      NotesEndTogether(s.frags[..k]);
    }
  }

  lemma {:induction false} ZeroSoFar(frags: seq<Frag>)
    ensures TimeOf(frags) == 0 ==> LastTime(frags) == 0
  {
    if frags != [] {
      ZeroSoFar(frags[..|frags| - 1]);
    }
  }

  lemma NotesEndTogether(frags: seq<Frag>)
    requires forall i :: 0 <= i < |frags| ==> frags[i].Note?
    ensures TimeOf(frags) == LastTime(frags)
  {
  }

  /** Scanning the fragments of one spurt, one after the other. */
  lemma {:induction false} ScanFragments(file: seq<byte>, off: nat, table: seq<Segment>, s: Spurt, where: nat, k: nat)
    requires Uniform(s) && k <= |s.frags| && |file| < MOD32
    requires At(file, off, PutFragments(s.frags))
    ensures off + |PutFragments(s.frags[..k])| <= |file|
    ensures Scan(file, off, table + [Partial(s, where, [])])
         == Scan(file, off + |PutFragments(s.frags[..k])|, table + [Partial(s, where, s.frags[..k])])
  {
    hide Partial, PutFragment, Scan, Uniform;
    if k == 0 {
      assert s.frags[..0] == [];
    } else {
      ScanFragments(file, off, table, s, where, k - 1);
      FragmentAt(file, off, s.frags, k - 1);
      var here := off + |PutFragments(s.frags[..k - 1])|;
      ScanOne(file, here, table, s, where, k - 1);
      SnocSize(s.frags, k - 1);
    }
  }

  lemma SnocSize(frags: seq<Frag>, k: nat)
    requires k < |frags|
    ensures |PutFragments(frags[..k + 1])| == |PutFragments(frags[..k])| + |PutFragment(frags[k])|
  {
    hide PutFragment;
    assert frags[..k + 1][..k] == frags[..k];
  }

  lemma {:induction false} FragmentAt(file: seq<byte>, off: nat, frags: seq<Frag>, k: nat)
    requires k < |frags| && At(file, off, PutFragments(frags))
    ensures At(file, off + |PutFragments(frags[..k])|, PutFragment(frags[k]))
    ensures off + |PutFragments(frags[..k + 1])| <= |file|
    decreases |frags|
  {
    hide PutFragment;
    var n := |frags| - 1;
    AtParts(file, off, PutFragments(frags[..n]), PutFragment(frags[n]));
    if k < n {
      FragmentAt(file, off, frags[..n], k);
      assert frags[..n][..k] == frags[..k] && frags[..n][..k + 1] == frags[..k + 1];
    } else {
      assert frags[..k + 1] == frags;
    }
  }

  lemma ScanOne(file: seq<byte>, off: nat, table: seq<Segment>, s: Spurt, where: nat, k: nat)
    requires Uniform(s) && k < |s.frags| && |file| < MOD32
    requires At(file, off, PutFragment(s.frags[k]))
    ensures Scan(file, off, table + [Partial(s, where, s.frags[..k])])
         == Scan(file, off + |PutFragment(s.frags[k])|, table + [Partial(s, where, s.frags[..k + 1])])
  {
    hide Word, GetFragment, PutFragment, TimeOf, LastTime, Tally;
    FragmentRead(file, off, s.frags[k]);
    var so_far := table + [Partial(s, where, s.frags[..k])];
    var last := |so_far| - 1;
    assert so_far[last].kind == KindCode(s.kind);
    var found := GetFragment(file, so_far[last].kind, off).value;
    TallyPartial(s, where, k, found.head);
    assert so_far[last := Tally(so_far[last], found.head)] == table + [Partial(s, where, s.frags[..k + 1])];
  }

  /** The audio record of any spurt, uniform or not. */
  lemma EntryRead(file: seq<byte>, off: nat, index: nat, s: Spurt, count: nat)
    requires s.name[NAME_LEN - 1] == 0 && At(file, off, Body(index, s, count))
    ensures off + AUDIO_HEAD <= |file| && Word(file, off) == AUDIO_HEAD
    ensures At(file, off + AUDIO_HEAD, PutFragments(s.frags))
    ensures NewEntry(file, off) == Partial(s, off, [])
  {
    hide PutAudio, GetAudio, PutFragments, Get32;
    var head := PutAudio(HeadOf(index, s.kind, count));
    AtParts(file, off, head, Tail(s.name, s.frags));
    AtParts(file, off + AUDIO_LEN, s.name, PutFragments(s.frags));
    assert file[off..off + AUDIO_LEN] == head;
    assert file[off..off + 4] == head[..4];
    GetAudioPutAudio(HeadOf(index, s.kind, count));
    var rest := file[off + AUDIO_LEN..];
    assert file[off + AUDIO_LEN..off + AUDIO_LEN + NAME_LEN] == s.name;
    assert rest[..NAME_LEN - 1] == file[off + AUDIO_LEN..off + AUDIO_LEN + NAME_LEN][..NAME_LEN - 1];
    assert s.name[..NAME_LEN - 1] + Zeros(1) == s.name;
  }

  lemma ScanBody(file: seq<byte>, off: nat, table: seq<Segment>, index: nat, s: Spurt, count: nat)
    requires Uniform(s) && |file| < MOD32
    requires At(file, off, Body(index, s, count))
    ensures Scan(file, off, table) == Scan(file, off + BodySize(s), table + [Partial(s, off, s.frags)])
  {
    hide Body, Word, NewEntry, GetFragment, PutFragments, Partial;
    EntryRead(file, off, index, s, count);
    ScanFragments(file, off + AUDIO_HEAD, table, s, off, |s.frags|);
    assert s.frags[..|s.frags|] == s.frags;
  }

  // ----- the whole file

  /** The rebuilt table, with the fragment counts still in `unknown1`. */
  function Rebuilt(segs: seq<Spurt>): (r: seq<Segment>)
    ensures |r| == |segs|
  {
    if segs == [] then []
    else
      var n := |segs| - 1;
      Rebuilt(segs[..n]) + [Partial(segs[n], OffsetOf(segs, n), segs[n].frags)]
  }

  lemma {:induction false} RebuiltAt(segs: seq<Spurt>, i: nat)
    requires i < |segs|
    ensures Rebuilt(segs)[i] == Partial(segs[i], OffsetOf(segs, i), segs[i].frags)
    ensures Rebuilt(segs)[..i] == Rebuilt(segs[..i])
    decreases |segs|
  {
    hide Partial, Size;
    var n := |segs| - 1;
    if i < n {
      RebuiltAt(segs[..n], i);
      assert segs[..n][..i] == segs[..i];
      assert OffsetOf(segs[..n], i) == OffsetOf(segs, i);
    } else {
      assert Rebuilt(segs)[..i] == Rebuilt(segs[..i]);
    }
  }

  lemma LastBodyAt(file: seq<byte>, segs: seq<Spurt>, done: nat)
    requires segs != [] && At(file, HEADER_LEN, Bodies(segs, done))
    ensures var n := |segs| - 1; (
              && At(file, HEADER_LEN, Bodies(segs[..n], done))
              && At(file, OffsetOf(segs, n), Body(n, segs[n], Shown(segs[n], n, done))))
  {
    hide Body, At, Bodies, Size, Shown;
    var n := |segs| - 1;
    BodiesSplit(segs, done);
    AtParts(file, HEADER_LEN, Bodies(segs[..n], done), Body(n, segs[n], Shown(segs[n], n, done)));
  }

  lemma {:induction false} BodyAt(file: seq<byte>, segs: seq<Spurt>, done: nat, i: nat)
    requires i < |segs| && At(file, HEADER_LEN, Bodies(segs, done))
    ensures At(file, OffsetOf(segs, i), Body(i, segs[i], Shown(segs[i], i, done)))
    decreases |segs|
  {
    hide Body, Bodies, Size, At, Shown;
    LastBodyAt(file, segs, done);
    var n := |segs| - 1;
    if i < n {
      BodyAt(file, segs[..n], done, i);
      assert segs[..n][..i] == segs[..i];
      assert OffsetOf(segs[..n], i) == OffsetOf(segs, i);
    }
  }

  lemma NoneRebuilt()
    ensures Rebuilt([]) == [] && Size([]) == 0
  {
  }

  lemma RebuiltSnoc(segs: seq<Spurt>, k: nat)
    requires k < |segs|
    ensures Rebuilt(segs[..k + 1]) == Rebuilt(segs[..k]) + [Partial(segs[k], OffsetOf(segs, k), segs[k].frags)]
    ensures OffsetOf(segs, k + 1) == OffsetOf(segs, k) + BodySize(segs[k])
  {
    hide Partial, BodySize;
    var some := segs[..k + 1];
    assert some[..k] == segs[..k];
  }

  lemma {:induction false} ScanBodies(file: seq<byte>, segs: seq<Spurt>, done: nat, i: nat)
    requires AllUniform(segs) && |file| < MOD32 && i <= |segs|
    requires At(file, HEADER_LEN, Bodies(segs, done))
    ensures Scan(file, HEADER_LEN, []) == Scan(file, OffsetOf(segs, i), Rebuilt(segs[..i]))
  {
    hide Scan, Partial, Body, Uniform, Bodies, At, Rebuilt, Size;
    if i == 0 {
      assert segs[..0] == [];
      NoneRebuilt();
    } else {
      var k := i - 1;
      ScanBodies(file, segs, done, k);
      BodyAt(file, segs, done, k);
      ScanBody(file, OffsetOf(segs, k), Rebuilt(segs[..k]), k, segs[k], Shown(segs[k], k, done));
      RebuiltSnoc(segs, k);
    }
  }

  /** The scan of a crash file finds exactly the spurts that reached the file. */
  lemma ScanCrash(prefix: seq<byte>, segs: seq<Spurt>, done: nat)
    requires AllUniform(segs) && |prefix| == HEADER_LEN && Fits(segs)
    ensures Scan(prefix + Bodies(segs, done), HEADER_LEN, []) == Ok(Rebuilt(segs))
  {
    hide Bodies, Rebuilt, AllUniform;
    var file := prefix + Bodies(segs, done);
    AtSeam(prefix, Bodies(segs, done), []);
    assert prefix + Bodies(segs, done) + [] == file;
    ScanBodies(file, segs, done, |segs|);
    assert segs[..|segs|] == segs;
  }

  lemma Repatched(index: nat, s: Spurt, was: nat, count: nat)
    ensures PutAudio(GetAudio(PutAudio(HeadOf(index, s.kind, was))).(fragcount := Wrap32(count)))
         == PutAudio(HeadOf(index, s.kind, count))
  {
    GetAudioPutAudio(HeadOf(index, s.kind, was));
  }

  /** Patching entry i in a file whose first `done` records are patched already. */
  lemma PatchSpurt(prefix: seq<byte>, segs: seq<Spurt>, done: nat, i: nat)
    requires i < |segs| && i <= done && Fits(segs) && |prefix| == HEADER_LEN
    ensures PatchOne(prefix + Bodies(segs, done), Partial(segs[i], OffsetOf(segs, i), segs[i].frags))
         == prefix + Bodies(segs, if i == done then done + 1 else done)
  {
    hide Bodies, PutAudio, GetAudio, TimeOf, LastTime, Tail, WriteAt, BodySize, Size;
    var file := prefix + Bodies(segs, done);
    var off := OffsetOf(segs, i);
    OffsetInside(segs, i);
    AtSeam(prefix, Bodies(segs, done), []);
    assert prefix + Bodies(segs, done) + [] == file;
    BodyAt(file, segs, done, i);
    var count := Shown(segs[i], i, done);
    var head := PutAudio(HeadOf(i, segs[i].kind, count));
    AtParts(file, off, head, Tail(segs[i].name, segs[i].frags));
    assert file[off..off + AUDIO_LEN] == head;
    Repatched(i, segs[i], count, |segs[i].frags|);
    if i < done {
      WriteAtSame(file, off, head);
    } else {
      PatchNext(prefix, segs, i);
    }
  }

  lemma {:induction false} PatchCrash(prefix: seq<byte>, segs: seq<Spurt>, done: nat, n: nat)
    requires n <= |segs| && Fits(segs) && |prefix| == HEADER_LEN
    ensures PatchFirst(prefix + Bodies(segs, done), Rebuilt(segs), n)
         == prefix + Bodies(segs, if n <= done then done else n)
  {
    hide PatchOne, Bodies, Rebuilt, Partial, Fits, Size;
    if n > 0 {
      PatchCrash(prefix, segs, done, n - 1);
      RebuiltAt(segs, n - 1);
      PatchSpurt(prefix, segs, if n - 1 <= done then done else n - 1, n - 1);
    }
  }

  lemma {:induction false} TableRebuilt(segs: seq<Spurt>)
    requires forall i :: 0 <= i < |segs| ==> segs[i].frags != []
    ensures PutTable(Rebuilt(segs)) == Table(segs)
  {
    hide PutSegment, TimeOf, LastTime;
    if segs != [] {
      var n := |segs| - 1;
      TableRebuilt(segs[..n]);
      RebuiltAt(segs, n);
      assert Rebuilt(segs)[n].(unknown1 := 0) == Entry(segs[n].kind, segs[n].name, segs[n].frags, OffsetOf(segs, n));
    }
  }

  /** Recovery of a crash file is exactly the finished file of the spurts that had reached it. */
  lemma RecoverPrefix(boot: Header, log: Log)
    requires boot.Valid() && boot.headid == TEMP_ID && log.Valid()
    requires AllUniform(log.segs[..log.written]) && Fits(log.segs[..log.written])
    ensures Recover(CrashImage(boot, log)) == Ok(FinalImage(boot, log.segs[..log.written]))
  {
    hide Scan, PatchFirst, PutTable, FinishFile, Bodies, PutHeader, GetHeader, Fits, Rebuilt, Table, FinalImage;
    var segs := log.segs[..log.written];
    var prefix := PutHeader(boot);
    var file := CrashImage(boot, log);
    assert file[..HEADER_LEN] == prefix;
    GetHeaderPutHeader(boot);
    ScanCrash(prefix, segs, log.Done());
    PatchCrash(prefix, segs, log.Done(), |segs|);
    if log.Done() >= |segs| {
      assert log.Done() == |segs|;
    }
    TableRebuilt(segs);
    FinishIsFinal(boot, prefix, boot.(segcount := Wrap32(|segs|)), segs);
  }

  // ----- over event histories

  /** A text bind of a user who is talking; the recorder would append it to the voice segment. */
  predicate Interrupts(segs: seq<Spurt>, ev: Event) {
    ev.Effective().TextData? && ev.data.Some? && FindOpen(segs, ev.user) < |segs|
  }

  predicate Clean(history: seq<Event>) {
    history == []
    || (Clean(history[..|history| - 1])
        && !Interrupts(Run(EMPTY_LOG, history[..|history| - 1]).segs, history[|history| - 1]))
  }

  lemma StepUniform(segs: seq<Spurt>, ev: Event)
    requires AllUniform(segs) && !Interrupts(segs, ev)
    requires forall i :: 0 <= i < |segs| && segs[i].kind.Text? ==> segs[i].stopped
    ensures AllUniform(Apply(segs, ev))
    ensures forall i :: 0 <= i < |Apply(segs, ev)| && Apply(segs, ev)[i].kind.Text? ==> Apply(segs, ev)[i].stopped
  {
    hide NameField, CStr, FindOpen;
    var i := FindOpen(segs, ev.user);
    if i < |segs| && ev.data.Some? {
      assert segs[i].kind.Ext?;
      assert Uniform(segs[i]);
    }
  }

  /** Without such a bind every segment holds one kind of fragment. */
  lemma {:induction false} CleanUniform(history: seq<Event>)
    requires Clean(history)
    ensures var segs := Run(EMPTY_LOG, history).segs; (
              AllUniform(segs) && forall i :: 0 <= i < |segs| && segs[i].kind.Text? ==> segs[i].stopped)
    decreases |history|
  {
    if history != [] {
      var n := |history| - 1;
      CleanUniform(history[..n]);
      StepUniform(Run(EMPTY_LOG, history[..n]).segs, history[n]);
    }
  }

  /** Nothing else breaks uniformity, and once broken it stays broken. */
  lemma {:induction false} UniformIffClean(history: seq<Event>)
    ensures Clean(history) <==> AllUniform(Run(EMPTY_LOG, history).segs)
    decreases |history|
  {
    hide Apply, Uniform, FindOpen, Grows;
    if history != [] {
      var n := |history| - 1;
      var segs := Run(EMPTY_LOG, history[..n]).segs;
      var ev := history[n];
      UniformIffClean(history[..n]);
      if Clean(history) {
        CleanUniform(history);
      } else if Clean(history[..n]) {
        CleanUniform(history[..n]);
        InterruptMixes(segs, ev);
      } else {
        RunValid(EMPTY_LOG, history[..n]);
        ApplyGrows(segs, ev);
        StaysMixed(segs, Apply(segs, ev));
      }
    }
  }

  lemma InterruptMixes(segs: seq<Spurt>, ev: Event)
    requires Interrupts(segs, ev)
    requires forall i :: 0 <= i < |segs| && segs[i].kind.Text? ==> segs[i].stopped
    ensures !AllUniform(Apply(segs, ev))
  {
    hide CStr, FindOpen;
    var i := FindOpen(segs, ev.user);
    var s := Apply(segs, ev)[i];
    assert segs[i].kind.Ext?;
    assert s.frags[|s.frags| - 1] == FragOf(ev);
    assert !Uniform(s);
  }

  lemma StaysMixed(a: seq<Spurt>, b: seq<Spurt>)
    requires Grows(a, b) && !AllUniform(a)
    requires forall i :: 0 <= i < |a| ==> a[i].frags != []
    ensures !AllUniform(b)
  {
    var i :| 0 <= i < |a| && !Uniform(a[i]);
    assert a[i].frags <= b[i].frags;
    if forall k :: 0 <= k < |b[i].frags| ==> b[i].frags[k].Note? == b[i].kind.Text? {
      forall k | 0 <= k < |a[i].frags|
        ensures a[i].frags[k].Note? == a[i].kind.Text?
      {
        assert a[i].frags[k] == b[i].frags[k];
      }
    }
    assert !Uniform(b[i]);
  }

  lemma PrefixFits(segs: seq<Spurt>, n: nat)
    requires n <= |segs| && Fits(segs)
    ensures Fits(segs[..n])
  {
    SizePrefix(segs, n);
  }

  /** A crash after any event loses exactly the spurts that had not reached the file: recovery builds the finished
      recording of all the others. */
  lemma CrashKeepsPrefix(boot: Header, history: seq<Event>)
    requires boot.Valid() && boot.headid == TEMP_ID && Clean(history)
    requires Fits(Run(EMPTY_LOG, history).segs)
    ensures var log := Run(EMPTY_LOG, history); (
              log.written <= |log.segs|
              && Recover(CrashImage(boot, log)) == Ok(FinalImage(boot, log.segs[..log.written])))
  {
    hide Run, Clean, CrashImage, FinalImage, Recover, Fits, Uniform;
    var log := Run(EMPTY_LOG, history);
    RunValid(EMPTY_LOG, history);
    CleanUniform(history);
    PrefixFits(log.segs, log.written);
    RecoverPrefix(boot, log);
  }

  /** Crash recovery equals an orderly stop, byte for byte, exactly when no spurt was waiting in memory. */
  lemma RecoveryEqualsStop(boot: Header, history: seq<Event>)
    requires boot.Valid() && boot.headid == TEMP_ID && Clean(history)
    requires Fits(Run(EMPTY_LOG, history).segs)
    ensures var log := Run(EMPTY_LOG, history); (
              log.written <= |log.segs|
              && (Recover(CrashImage(boot, log)) == Ok(FinalImage(boot, log.segs)) <==> log.written == |log.segs|))
  {
    hide Run, Clean, CrashImage, Recover, Fits, Bodies, Table, PutHeader, Size;
    var log := Run(EMPTY_LOG, history);
    CrashKeepsPrefix(boot, history);
    if log.written == |log.segs| {
      assert log.segs[..log.written] == log.segs;
    } else {
      SizePrefix(log.segs, log.written);
      assert |FinalImage(boot, log.segs[..log.written])| < |FinalImage(boot, log.segs)|;
    }
  }

  /** Recovery is idempotent on every file it accepts. */
  lemma RecoverTwice(file: seq<byte>)
    requires Recover(file).Ok?
    ensures Recover(Recover(file).value) == Recover(file)
  {
    hide Scan, PatchFirst, PutTable;
    var header := GetHeader(file[..HEADER_LEN]);
    if header.headid == TEMP_ID {
      var table := Scan(file, HEADER_LEN, []).value;
      FinishedHeader(PatchFirst(file, table, |table|), header.(segcount := Wrap32(|table|)), PutTable(table));
    }
  }

  lemma FinishedHeader(file: seq<byte>, header: Header, table: seq<byte>)
    requires header.Valid()
    ensures var r := FinishFile(file, header, table); (
              |r| >= HEADER_LEN && GetHeader(r[..HEADER_LEN]).headid == HEAD_ID)
  {
    hide PutHeader, GetHeader;
    var segtable := Wrap32(|file|);
    var tabled := if table != [] then WriteAt(file, segtable, table) else file;
    var last := header.(segtable := segtable, headid := HEAD_ID, size := Wrap32(|tabled|));
    assert WriteAt(tabled, 0, PutHeader(last))[..HEADER_LEN] == PutHeader(last);
    GetHeaderPutHeader(last);
  }
}
