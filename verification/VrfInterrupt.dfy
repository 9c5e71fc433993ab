/** Crash recovery when a text bind arrives while the same user is talking: the recorder appends the note to the voice
    segment, and the scan reads it as one more voice fragment. */
module VrfInterrupt {
  import opened Bytes
  import opened VrfFormat
  import opened VrfLog
  import opened VrfImage
  import opened VrfRecover
  import opened VrfRecovery

  // ----- what the scan makes of the note

  /** The second word of the text, which stands where a voice fragment has its time. */
  function TextWord(text: seq<byte>): u32 {
    Get32(Strncpy(text, TEXT_LEN)[4..8])
  }

  /** Where the note of an interrupted segment stands. */
  function NoteAt(s: Spurt, off: nat): nat {
    off + AUDIO_HEAD + |PutFragments(s.frags)|
  }

  /** The table entry of the talk spurt s after the scan has read the note as a voice fragment. */
  function Misread(s: Spurt, off: nat, note: Frag): Segment
    requires note.Note?
  {
    var g := Partial(s, off, s.frags);
    var counted := g.(unknown1 := Wrap32(|s.frags| + 1));
    if g.time == 0 then counted.(time := TextWord(note.text))
    else counted.(duration := Wrap32(TextWord(note.text) - g.time))
  }

  // ----- the segments of any history

  function NoteOf(t: Spurt): Frag
    requires t.frags != []
  {
    t.frags[|t.frags| - 1]
  }

  /** The talk spurt before the note. */
  function TalkOf(t: Spurt): Spurt
    requires t.frags != []
  {
    t.(frags := t.frags[..|t.frags| - 1])
  }

  /** A talk spurt that a note has ended. */
  predicate Interrupted(t: Spurt) {
    t.stopped && t.kind.Ext? && t.frags != [] && NoteOf(t).Note? && Uniform(TalkOf(t))
  }

  predicate Shaped(t: Spurt) {
    Uniform(t) || Interrupted(t)
  }

  predicate AllShaped(segs: seq<Spurt>) {
    forall i :: 0 <= i < |segs| ==> Shaped(segs[i]) && (!segs[i].stopped ==> Uniform(segs[i]) && segs[i].kind.Ext?)
  }

  lemma NotBoth(t: Spurt)
    requires Interrupted(t)
    ensures !Uniform(t)
  {
  }

  lemma ExtendShaped(s: Spurt, f: Frag)
    requires Uniform(s) && s.kind.Ext?
    ensures var t := Extend(s, f); Shaped(t) && (!t.stopped ==> Uniform(t))
  {
    var t := Extend(s, f);
    assert t.frags[..|t.frags| - 1] == s.frags;
  }

  lemma ApplyShaped(segs: seq<Spurt>, ev: Event)
    requires AllShaped(segs)
    ensures AllShaped(Apply(segs, ev))
  {
    hide Uniform, CStr, NameField, FindOpen;
    var i := FindOpen(segs, ev.user);
    if (ev.Effective().AudioData? || ev.Effective().TextData?) && ev.data.Some? {
      if i < |segs| {
        ExtendShaped(segs[i], FragOf(ev));
      } else {
        BeginUniform(ev);
      }
    } else {
      StopShaped(segs);
    }
  }

  lemma BeginUniform(ev: Event)
    requires ev.data.Some? && ev.name.Some?
    ensures Uniform(Begin(ev)) && (!Begin(ev).stopped ==> Begin(ev).kind.Ext?)
  {
  }

  lemma StopShaped(segs: seq<Spurt>)
    requires AllShaped(segs)
    ensures forall i :: 0 <= i < |segs| ==> Shaped(segs[i].(stopped := true))
  {
  }

  /** Every segment of every history is uniform, or a talk spurt that a note has ended. */
  lemma {:induction false} RunShaped(history: seq<Event>)
    ensures AllShaped(Run(EMPTY_LOG, history).segs)
    decreases |history|
  {
    hide AllShaped, Apply;
    if history == [] {
      NoneShaped();
    } else {
      RunShaped(history[..|history| - 1]);
      ApplyShaped(Run(EMPTY_LOG, history[..|history| - 1]).segs, history[|history| - 1]);
    }
  }

  lemma NoneShaped()
    ensures AllShaped([])
  {
  }

  // ----- the scan of a note

  lemma NoteShape(f: Frag)
    requires f.Note?
    ensures PutFragment(f) == PutWords([TEXT_HEAD, f.time]) + Strncpy(f.text, TEXT_LEN)
    ensures |PutFragment(f)| == 264
  {
  }

  lemma WordsOf(a: u32, b: u32, text: seq<byte>)
    requires |text| == 16
    ensures var head := GetFrag(PutWords([a, b]) + text); head.fraglen == b && head.unknown1 == Get32(text[4..8])
  {
    var s := PutWords([a, b]) + text;
    TwoWords(a, b, text);
    var t := s[..16];
    assert t[4..][4..] == text[..8];
    assert text[..8][4..] == text[4..8] && text[4..8][..4] == text[4..8];
    assert GetWords(t)[1..] == GetWords(t[4..]);
    assert GetWords(t[4..])[1..] == GetWords(text[..8]);
    assert GetWords(text[..8])[1..] == GetWords(text[4..8]);
  }

  /** The note inside a voice segment is read as a voice fragment: its time passes for the length of its payload, and
      its text for the rest of the header. */
  lemma NoteReadAsVoice(file: seq<byte>, off: nat, note: Frag)
    requires note.Note? && At(file, off, PutFragment(note))
    ensures off + 4 < |file| && Word(file, off) == TEXT_HEAD
    ensures var found := GetFragment(file, TYPE_EXT, off); (
              && found.Ok? && found.value.headlen == FRAGMENT_LEN && found.value.datalen == note.time
              && found.value.head.unknown1 == TextWord(note.text))
  {
    hide GetFrag, Get32, Strncpy;
    NoteShape(note);
    var bs := PutWords([TEXT_HEAD, note.time]);
    var text := Strncpy(note.text, TEXT_LEN);
    var head := file[off..off + FRAGMENT_LEN];
    AtParts(file, off, bs, text);
    assert head == bs + text[..16];
    assert head + Zeros(0) == head;
    WordsOf(TEXT_HEAD, note.time, text[..16]);
    assert text[..16][4..8] == text[4..8];
    assert file[off..off + 4] == (bs + text[..16])[..4];
    FirstWord([TEXT_HEAD, note.time], text[..16]);
  }

  /** In a zero-padded string only zeros follow a zero, so no word of it is one of the lengths that begin a record. */
  lemma NoRecordInText(src: seq<byte>, n: nat, j: nat)
    requires j + 4 <= n
    ensures Get32(Strncpy(src, n)[j..j + 4]) !in {AUDIO_HEAD, FRAGMENT_LEN, TEXT_HEAD}
  {
    var text := Strncpy(src, n);
    var w := text[j..j + 4];
    assert forall i :: 0 <= i < n - 1 && text[i] == 0 ==> text[i + 1] == 0;
    assert w[0] == text[j] && w[1] == text[j + 1] && w[2] == text[j + 2] && w[3] == text[j + 3];
    assert w[..2][0] == w[0] && w[..2][1] == w[1] && w[2..][0] == w[2] && w[2..][1] == w[3];
  }

  /** Inside the note the scan meets no record. */
  lemma InsideNote(file: seq<byte>, off: nat, note: Frag)
    requires note.Note? && At(file, off, PutFragment(note)) && note.time < 236
    ensures var next := off + FRAGMENT_LEN + note.time; (
              next + 4 <= |file| && Word(file, next) !in {AUDIO_HEAD, FRAGMENT_LEN, TEXT_HEAD})
  {
    hide PutWords, Get32, Strncpy, PutFragment;
    NoteShape(note);
    var text := Strncpy(note.text, TEXT_LEN);
    AtParts(file, off, PutWords([TEXT_HEAD, note.time]), text);
    SliceAt(file, off + 8, text, 16 + note.time);
    NoRecordInText(note.text, TEXT_LEN, 16 + note.time);
  }

  /** When another record follows, a scan that lands on the last bytes of the text meets no record either. */
  lemma BeforeNext(file: seq<byte>, off: nat, note: Frag)
    requires note.Note? && At(file, off, PutFragment(note)) && 236 <= note.time < 240
    requires off + 268 <= |file| && Word(file, off + 264) == AUDIO_HEAD
    ensures var next := off + FRAGMENT_LEN + note.time;
            Word(file, next) !in {AUDIO_HEAD, FRAGMENT_LEN, TEXT_HEAD}
  {
    hide PutWords, Strncpy, PutFragment;
    var next := off + FRAGMENT_LEN + note.time;
    if note.time == 236 {
      hide Get32;
      NoteShape(note);
      var text := Strncpy(note.text, TEXT_LEN);
      AtParts(file, off, PutWords([TEXT_HEAD, note.time]), text);
      SliceAt(file, off + 8, text, 252);
      NoRecordInText(note.text, TEXT_LEN, 252);
    } else {
      var w := file[off + 264..off + 268];
      Put32Get32(w);
      assert w[0] == 0 && w[1] == 0 && w[2] == 0;
      assert file[next + 3] == w[note.time - 237];
      LowByte(file[next..next + 4]);
    }
  }

  lemma LowByte(w: seq<byte>)
    requires |w| == 4 && w[3] == 0
    ensures Get32(w) !in {AUDIO_HEAD, FRAGMENT_LEN, TEXT_HEAD}
  {
    assert w[2..][1] == 0;
  }

  /** The scan goes from the note to the place that the note's time names. */
  lemma ScanNote(file: seq<byte>, off: nat, table: seq<Segment>, note: Frag)
    requires note.Note? && At(file, off, PutFragment(note))
    requires table != [] && table[|table| - 1].kind == TYPE_EXT
    ensures (
      var last, next := |table| - 1, off + FRAGMENT_LEN + note.time;
      var found := GetFragment(file, TYPE_EXT, off);
      && found.Ok? && found.value.head.unknown1 == TextWord(note.text)
      && Scan(file, off, table) == if next >= MOD32 then Err(OffsetWraps)
                                   else Scan(file, next, table[last := Tally(table[last], found.value.head)]))
  {
    hide GetFragment, Tally, PutFragment, Word, At, TextWord;
    NoteReadAsVoice(file, off, note);
  }

  lemma SliceAt(file: seq<byte>, off: nat, bs: seq<byte>, j: nat)
    requires At(file, off, bs) && j + 4 <= |bs|
    ensures file[off + j..off + j + 4] == bs[j..j + 4]
  {
    SliceOfSlice(file, off, off + |bs|, j, j + 4);
  }

  /** The note as a voice fragment in the tally. */
  lemma TallyNote(s: Spurt, off: nat, note: Frag, head: FragHead)
    requires note.Note? && Uniform(s) && s.kind.Ext? && head.unknown1 == TextWord(note.text)
    ensures Tally(Partial(s, off, s.frags), head) == Misread(s, off, note)
  {
    hide TimeOf, LastTime, TextWord;
  }

  /** The scan of an interrupted segment up to the place that the note's time names. */
  lemma ScanTalk(file: seq<byte>, off: nat, table: seq<Segment>, index: nat, t: Spurt, count: nat)
    requires Interrupted(t) && At(file, off, Body(index, t, count)) && |file| < MOD32
    ensures var s, note := TalkOf(t), NoteOf(t);
            var next := NoteAt(s, off) + FRAGMENT_LEN + note.time; (
              && At(file, NoteAt(s, off), PutFragment(note)) && NoteAt(s, off) + 264 == off + BodySize(t)
              && Scan(file, off, table) == if next >= MOD32 then Err(OffsetWraps)
                                           else Scan(file, next, table + [Misread(s, off, note)]))
  {
    hide Scan, Word, GetFragment, PutFragment, NewEntry, Partial, Tally, Misread, At, PutAudio, PutFragments;
    var s, note := TalkOf(t), NoteOf(t);
    assert s.frags + [note] == t.frags;
    PutFragmentsSnoc(s.frags, note);
    NoteShape(note);
    BodySnoc(index, s, note, t, count);
    AtParts(file, off, Body(index, s, count), PutFragment(note));
    ScanBody(file, off, table, index, s, count);
    PartialKind(s, off);
    var so_far := table + [Partial(s, off, s.frags)];
    ScanNote(file, NoteAt(s, off), so_far, note);
    TallyNote(s, off, note, GetFragment(file, TYPE_EXT, NoteAt(s, off)).value.head);
    assert so_far[|so_far| - 1 := Misread(s, off, note)] == table + [Misread(s, off, note)];
  }

  lemma PartialKind(s: Spurt, off: nat)
    ensures Partial(s, off, s.frags).kind == KindCode(s.kind)
  {
  }

  // ----- the whole file

  /** The table entry that the scan makes of a segment. */
  function Reading(t: Spurt, off: nat): Segment
    requires Shaped(t)
  {
    if Uniform(t) then Partial(t, off, t.frags) else Misread(TalkOf(t), off, NoteOf(t))
  }

  /** The scan finds the record after the segment: always behind a uniform one; behind a note only if its time names the
      note's own end, or, at the end of the file, a place in its last four bytes or beyond. */
  predicate Passes(t: Spurt, off: nat, last: bool)
    requires Shaped(t)
  {
    || Uniform(t)
    || NoteOf(t).time == 240
    || (last && 236 <= NoteOf(t).time && NoteAt(TalkOf(t), off) + FRAGMENT_LEN + NoteOf(t).time < MOD32)
  }

  predicate AllPass(segs: seq<Spurt>)
    requires AllShaped(segs)
  {
    forall i :: 0 <= i < |segs| ==> PassesIn(segs, i)
  }

  predicate PassesIn(segs: seq<Spurt>, i: nat)
    requires AllShaped(segs) && i < |segs|
  {
    Passes(segs[i], OffsetOf(segs, i), i == |segs| - 1)
  }

  /** The entry is right: the text happens to repeat the time of the bind, and the voice has no other time. */
  predicate Repeats(t: Spurt)
    requires Shaped(t)
  {
    Uniform(t)
    || (TextWord(NoteOf(t).text) == NoteOf(t).time
        && (TimeOf(TalkOf(t).frags) == 0 || TimeOf(TalkOf(t).frags) == NoteOf(t).time))
  }

  predicate AllRepeat(segs: seq<Spurt>)
    requires AllShaped(segs)
  {
    forall i :: 0 <= i < |segs| ==> Repeats(segs[i])
  }

  lemma ScanPassing(file: seq<byte>, off: nat, table: seq<Segment>, index: nat, t: Spurt, count: nat)
    requires Shaped(t) && At(file, off, Body(index, t, count)) && |file| < MOD32
    requires Passes(t, off, off + BodySize(t) == |file|)
    ensures Scan(file, off, table) == Scan(file, off + BodySize(t), table + [Reading(t, off)])
  {
    hide Word, GetFragment, Body, NewEntry, Partial, Tally, Misread, PutFragments, Uniform, NoteAt;
    if Uniform(t) {
      ScanBody(file, off, table, index, t, count);
    } else {
      ScanTalk(file, off, table, index, t, count);
    }
  }

  function Reread(segs: seq<Spurt>): (r: seq<Segment>)
    requires AllShaped(segs)
    ensures |r| == |segs|
  {
    if segs == [] then []
    else
      var n := |segs| - 1;
      Reread(segs[..n]) + [Reading(segs[n], OffsetOf(segs, n))]
  }

  lemma RereadSnoc(segs: seq<Spurt>, k: nat)
    requires AllShaped(segs) && k < |segs|
    ensures Reread(segs[..k + 1]) == Reread(segs[..k]) + [Reading(segs[k], OffsetOf(segs, k))]
    ensures OffsetOf(segs, k + 1) == OffsetOf(segs, k) + BodySize(segs[k])
  {
    hide Reading, BodySize, Shaped, Uniform;
    var some := segs[..k + 1];
    assert some[..k] == segs[..k];
  }

  lemma {:induction false} ScanPassingBodies(file: seq<byte>, segs: seq<Spurt>, done: nat, i: nat)
    requires AllShaped(segs) && i <= |segs| && forall k :: 0 <= k < i ==> PassesIn(segs, k)
    requires At(file, HEADER_LEN, Bodies(segs, done)) && |file| == HEADER_LEN + Size(segs) && |file| < MOD32
    ensures Scan(file, HEADER_LEN, []) == Scan(file, OffsetOf(segs, i), Reread(segs[..i]))
  {
    hide Scan, Reading, Body, Uniform, Bodies, At, Reread, Size, BodySize, Passes, Shaped;
    if i == 0 {
      assert segs[..0] == [];
      NoneReread();
    } else {
      var k := i - 1;
      ScanPassingBodies(file, segs, done, k);
      BodyAt(file, segs, done, k);
      RereadSnoc(segs, k);
      assert PassesIn(segs, k);
      LastOrNot(file, segs, k);
      ScanPassing(file, OffsetOf(segs, k), Reread(segs[..k]), k, segs[k], Shown(segs[k], k, done));
    }
  }

  lemma NoneReread()
    ensures Reread([]) == [] && Size([]) == 0
  {
  }

  lemma LastOrNot(file: seq<byte>, segs: seq<Spurt>, k: nat)
    requires AllShaped(segs) && k < |segs| && PassesIn(segs, k) && |file| == HEADER_LEN + Size(segs)
    ensures Passes(segs[k], OffsetOf(segs, k), OffsetOf(segs, k) + BodySize(segs[k]) == |file|)
  {
    hide Uniform, BodySize, Shaped, NoteAt;
    if k == |segs| - 1 {
      assert segs[..k + 1] == segs;
      RereadSnoc(segs, k);
    }
  }

  // ----- a refused file

  /** Without a passing note the scan ends in the text or in front of the next record. */
  lemma ScanStuck(file: seq<byte>, off: nat, table: seq<Segment>, index: nat, t: Spurt, count: nat)
    requires Interrupted(t) && At(file, off, Body(index, t, count)) && |file| < MOD32
    requires NoteOf(t).time < 236
             || (NoteOf(t).time < 240 && off + BodySize(t) + 4 <= |file| && Word(file, off + BodySize(t)) == AUDIO_HEAD)
    ensures Scan(file, off, table) == Err(UnknownHeader)
  {
    hide Word, GetFragment, Body, NewEntry, Partial, Tally, Misread, PutFragments, Uniform, NoteAt, PutFragment,
         BodySize;
    ScanTalk(file, off, table, index, t, count);
    var at := NoteAt(TalkOf(t), off);
    NoteShape(NoteOf(t));
    if NoteOf(t).time < 236 {
      InsideNote(file, at, NoteOf(t));
    } else {
      BeforeNext(file, at, NoteOf(t));
    }
  }

  /** The file of a crash, up to a segment that every earlier one passes on to. */
  lemma CrashFile(boot: Header, segs: seq<Spurt>, done: nat, i: nat)
    requires boot.Valid() && boot.headid == TEMP_ID && AllShaped(segs) && Fits(segs)
    requires i <= |segs| && AllShaped(segs[..i]) && forall k :: 0 <= k < i ==> PassesIn(segs, k)
    ensures var file := PutHeader(boot) + Bodies(segs, done); (
              && |file| == HEADER_LEN + Size(segs) && |file| < MOD32
              && GetHeader(file[..HEADER_LEN]) == boot
              && At(file, HEADER_LEN, Bodies(segs, done))
              && Scan(file, HEADER_LEN, []) == Scan(file, OffsetOf(segs, i), Reread(segs[..i])))
  {
    hide Scan, Bodies, PutHeader, GetHeader, Reread, Size, PassesIn, AllShaped;
    var file := PutHeader(boot) + Bodies(segs, done);
    AtSeam(PutHeader(boot), Bodies(segs, done), []);
    assert PutHeader(boot) + Bodies(segs, done) + [] == file;
    assert file[..HEADER_LEN] == PutHeader(boot);
    GetHeaderPutHeader(boot);
    ScanPassingBodies(file, segs, done, i);
  }

  /** What decides for a segment that does not pass: the time of its bind. */
  lemma RecoverStuck(boot: Header, log: Log, i: nat)
    requires boot.Valid() && boot.headid == TEMP_ID && log.written <= |log.segs|
    requires var segs := log.segs[..log.written];
             && AllShaped(segs) && i < |segs| && Fits(segs) && Interrupted(segs[i])
             && forall k :: 0 <= k < i ==> PassesIn(segs, k)
    ensures var segs, r := log.segs[..log.written], Recover(CrashImage(boot, log));
            var time := NoteOf(segs[i]).time; (
              && (time < 236 || (time < 240 && i + 1 < |segs|) ==> r == Err(UnknownHeader))
              && (NoteAt(TalkOf(segs[i]), OffsetOf(segs, i)) + FRAGMENT_LEN + time >= MOD32 ==> r == Err(OffsetWraps)))
  {
    hide Scan, Bodies, Body, PutHeader, GetHeader, Reread, Size, PassesIn, AllShaped, Uniform, At, Word, NoteAt,
         BodySize, Misread, Shown;
    var segs := log.segs[..log.written];
    var file := CrashImage(boot, log);
    ShapedParts(segs, i);
    CrashFile(boot, segs, log.Done(), i);
    BodyAt(file, segs, log.Done(), i);
    var off, table := OffsetOf(segs, i), Reread(segs[..i]);
    ScanTalk(file, off, table, i, segs[i], Shown(segs[i], i, log.Done()));
    RereadSnoc(segs, i);
    var time := NoteOf(segs[i]).time;
    if time < 236 || (time < 240 && i + 1 < |segs|) {
      if i + 1 < |segs| {
        NextRecord(file, segs, log.Done(), i + 1);
      }
      ScanStuck(file, off, table, i, segs[i], Shown(segs[i], i, log.Done()));
    }
  }

  lemma NextRecord(file: seq<byte>, segs: seq<Spurt>, done: nat, i: nat)
    requires i < |segs| && AllShaped(segs) && At(file, HEADER_LEN, Bodies(segs, done))
    ensures OffsetOf(segs, i) + 4 <= |file| && Word(file, OffsetOf(segs, i)) == AUDIO_HEAD
  {
    hide Body, At, Bodies, Word, Size, Uniform, NewEntry, Partial;
    BodyAt(file, segs, done, i);
    NameEnds(segs[i]);
    EntryRead(file, OffsetOf(segs, i), i, segs[i], Shown(segs[i], i, done));
  }

  lemma NameEnds(t: Spurt)
    requires Shaped(t)
    ensures t.name[NAME_LEN - 1] == 0
  {
  }

  // ----- a recovered file

  lemma {:induction false} PatchSame(file: seq<byte>, a: seq<Segment>, b: seq<Segment>, n: nat)
    requires n <= |a| && n <= |b|
    requires forall i :: 0 <= i < n ==> a[i].offset == b[i].offset && a[i].unknown1 == b[i].unknown1
    ensures PatchFirst(file, a, n) == PatchFirst(file, b, n)
  {
    hide GetAudio, PutAudio, WriteAt;
    if n > 0 {
      PatchSame(file, a, b, n - 1);
    }
  }

  lemma {:induction false} ReadingAt(segs: seq<Spurt>, i: nat)
    requires AllShaped(segs) && i < |segs|
    ensures Reread(segs)[i] == Reading(segs[i], OffsetOf(segs, i))
    decreases |segs|
  {
    hide Reading, Size, Shaped;
    var n := |segs| - 1;
    if i < n {
      ReadingAt(segs[..n], i);
      assert OffsetOf(segs[..n], i) == OffsetOf(segs, i) by {
        assert segs[..n][..i] == segs[..i];
      }
    }
  }

  lemma ReadingCounts(t: Spurt, off: nat)
    requires Shaped(t)
    ensures Reading(t, off).offset == Wrap32(off) && Reading(t, off).unknown1 == Wrap32(|t.frags|)
  {
    hide TimeOf, LastTime, TextWord;
  }

  /** Patching needs only the offsets and the counts, and those are right. */
  lemma PatchReread(prefix: seq<byte>, segs: seq<Spurt>, done: nat)
    requires AllShaped(segs) && |prefix| == HEADER_LEN && Fits(segs) && done <= |segs|
    ensures PatchFirst(prefix + Bodies(segs, done), Reread(segs), |segs|) == prefix + Bodies(segs, |segs|)
  {
    hide PatchFirst, Bodies, Reading, Partial, Size, Shaped, Fits, Reread, Rebuilt;
    PatchCrash(prefix, segs, done, |segs|);
    forall i | 0 <= i < |segs|
      ensures Reread(segs)[i].offset == Rebuilt(segs)[i].offset && Reread(segs)[i].unknown1 == Rebuilt(segs)[i].unknown1
    {
      ReadingAt(segs, i);
      RebuiltAt(segs, i);
      ReadingCounts(segs[i], OffsetOf(segs, i));
      PartialCounts(segs[i], OffsetOf(segs, i));
    }
    PatchSame(prefix + Bodies(segs, done), Reread(segs), Rebuilt(segs), |segs|);
  }

  lemma PartialCounts(t: Spurt, off: nat)
    ensures Partial(t, off, t.frags).offset == Wrap32(off) && Partial(t, off, t.frags).unknown1 == Wrap32(|t.frags|)
  {
  }

  lemma TailStays(file: seq<byte>, table: seq<byte>, header: seq<byte>)
    requires |header| <= |file|
    ensures |WriteAt(file + table, 0, header)| == |file| + |table|
    ensures WriteAt(file + table, 0, header)[|file|..] == table
  {
  }

  /** The table is the end of every finished file, so different tables give different files. */
  lemma FinishTells(file: seq<byte>, header: Header, a: seq<byte>, b: seq<byte>)
    requires header.Valid() && |a| == |b| && HEADER_LEN <= |file| && |file| + |a| < MOD32
    ensures FinishFile(file, header, a) == FinishFile(file, header, b) <==> a == b
    ensures |FinishFile(file, header, a)| == |FinishFile(file, header, b)|
  {
    hide FinishFile, PutHeader, WriteAt;
    FinishBytes(file, header, a);
    FinishBytes(file, header, b);
    var last := PutHeader(header.(segtable := |file|, headid := HEAD_ID, size := |file| + |a|));
    TailStays(file, a, last);
    TailStays(file, b, last);
  }

  lemma MisreadIsEntry(s: Spurt, off: nat, note: Frag)
    requires note.Note? && Uniform(s) && s.kind.Ext?
    ensures Misread(s, off, note).(unknown1 := 0) == Entry(s.kind, s.name, s.frags + [note], off)
        <==> TextWord(note.text) == note.time && (TimeOf(s.frags) == 0 || TimeOf(s.frags) == note.time)
  {
    hide TimeOf, LastTime, TextWord;
    TimesSnoc(s.frags, note);
    ZeroSoFar(s.frags);
  }

  lemma ReadingIsEntry(t: Spurt, off: nat)
    requires Shaped(t)
    ensures Reading(t, off).(unknown1 := 0) == Entry(t.kind, t.name, t.frags, off) <==> Repeats(t)
  {
    hide TimeOf, LastTime, TextWord, Misread;
    if !Uniform(t) {
      assert TalkOf(t).frags + [NoteOf(t)] == t.frags;
      MisreadIsEntry(TalkOf(t), off, NoteOf(t));
    }
  }

  lemma {:induction false} TableReread(segs: seq<Spurt>)
    requires AllShaped(segs)
    ensures |PutTable(Reread(segs))| == |Table(segs)|
    ensures PutTable(Reread(segs)) == Table(segs) <==> AllRepeat(segs)
  {
    hide PutSegment, Entry, Reading, Shaped, Repeats;
    if segs != [] {
      var n := |segs| - 1;
      TableReread(segs[..n]);
      var g := Reading(segs[n], OffsetOf(segs, n)).(unknown1 := 0);
      var e := Entry(segs[n].kind, segs[n].name, segs[n].frags, OffsetOf(segs, n));
      assert Reread(segs)[..n] == Reread(segs[..n]);
      ReadingIsEntry(segs[n], OffsetOf(segs, n));
      GetSegmentPutSegment(g);
      GetSegmentPutSegment(e);
      SameParts(PutTable(Reread(segs[..n])), PutSegment(g), Table(segs[..n]), PutSegment(e));
      AllRepeatSnoc(segs);
    }
  }

  lemma AllRepeatSnoc(segs: seq<Spurt>)
    requires AllShaped(segs) && segs != []
    ensures AllRepeat(segs) <==> AllRepeat(segs[..|segs| - 1]) && Repeats(segs[|segs| - 1])
  {
    hide Shaped, Repeats;
    var n := |segs| - 1;
    if AllRepeat(segs[..n]) && Repeats(segs[n]) {
      forall i | 0 <= i < |segs|
        ensures Repeats(segs[i])
      {
        assert i < n ==> Repeats(segs[..n][i]);
      }
    }
    if AllRepeat(segs) {
      assert forall i :: 0 <= i < n ==> segs[..n][i] == segs[i];
    }
  }

  lemma SameParts<T>(a: seq<T>, b: seq<T>, c: seq<T>, d: seq<T>)
    requires |a| == |c|
    ensures a + b == c + d <==> a == c && b == d
  {
    if a + b == c + d {
      assert (a + b)[..|a|] == a && (c + d)[..|c|] == c && (a + b)[|a|..] == b && (c + d)[|c|..] == d;
    }
  }

  /** If all segments on disk pass, recovery finishes a file of the right length, and it is the file of an orderly stop
      if and only if every entry is right. */
  lemma {:induction false} RecoverPassing(boot: Header, log: Log)
    requires boot.Valid() && boot.headid == TEMP_ID && log.Valid()
    requires var segs := log.segs[..log.written]; AllShaped(segs) && Fits(segs) && AllPass(segs)
    ensures var segs, r := log.segs[..log.written], Recover(CrashImage(boot, log)); (
              && r.Ok? && |r.value| == |FinalImage(boot, segs)|
              && (r == Ok(FinalImage(boot, segs)) <==> AllRepeat(segs)))
  {
    hide Scan, PatchFirst, PutTable, FinishFile, Bodies, PutHeader, GetHeader, Reread, Table, FinalImage, Size,
         AllShaped, AllPass, AllRepeat, PassesIn, Fits;
    var segs := log.segs[..log.written];
    var prefix := PutHeader(boot);
    var file := CrashImage(boot, log);
    EveryPasses(segs);
    assert segs[..|segs|] == segs;
    CrashFile(boot, segs, log.Done(), |segs|);
    ScanEnd(file, OffsetOf(segs, |segs|), Reread(segs));
    PatchReread(prefix, segs, log.Done());
    TableReread(segs);
    var header := boot.(segcount := Wrap32(|segs|));
    var patched := prefix + Bodies(segs, |segs|);
    assert Recover(file) == Ok(FinishFile(patched, header, PutTable(Reread(segs))));
    FinishIsFinal(boot, prefix, header, segs);
    FitsSize(segs);
    FinishTells(patched, header, PutTable(Reread(segs)), Table(segs));
  }

  lemma ScanEnd(file: seq<byte>, off: nat, table: seq<Segment>)
    requires |file| <= off
    ensures Scan(file, off, table) == Ok(table)
  {
  }

  lemma EveryPasses(segs: seq<Spurt>)
    requires AllShaped(segs) && AllPass(segs)
    ensures forall k :: 0 <= k < |segs| ==> PassesIn(segs, k)
  {
    hide AllShaped, PassesIn;
  }

  lemma FitsSize(segs: seq<Spurt>)
    requires Fits(segs)
    ensures HEADER_LEN + Size(segs) + |Table(segs)| < MOD32
  {
    hide Size;
  }

  lemma ShapedParts(segs: seq<Spurt>, n: nat)
    requires AllShaped(segs) && n <= |segs|
    ensures AllShaped(segs[..n])
  {
    hide Shaped, Uniform;
  }
}
