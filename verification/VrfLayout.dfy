/** A finished recording byte by byte: what stands at which offset, in network byte order, without the encoders. */
module VrfLayout {
  import opened Bytes
  import opened VrfFormat
  import opened VrfLog
  import opened VrfImage
  import opened VrfReader
  import opened VrfRecovery

  /** The 16 bit number at an offset, highest byte first. */
  function HalfAt(s: seq<byte>, off: nat): int
    requires off + 2 <= |s|
  {
    var a: int, b: int := s[off], s[off + 1];
    a * 256 + b
  }

  /** The 32 bit number at an offset, highest byte first. */
  function WordAt(s: seq<byte>, off: nat): int
    requires off + 4 <= |s|
  {
    var a: int, b: int, c: int, d: int := s[off], s[off + 1], s[off + 2], s[off + 3];
    ((a * 256 + b) * 256 + c) * 256 + d
  }

  lemma Put16Value(x: u16)
    ensures HalfAt(Put16(x), 0) == x
  {
  }

  lemma Put32Value(x: u32)
    ensures WordAt(Put32(x), 0) == x
  {
    var hi, lo := x / 0x1_0000, x % 0x1_0000;
    Put16Value(hi);
    Put16Value(lo);
    assert Put32(x) == Put16(hi) + Put16(lo);
  }

  /** A number keeps its value wherever its bytes stand. */
  lemma WordThere(file: seq<byte>, off: nat, bs: seq<byte>, k: nat)
    requires At(file, off, bs) && k + 4 <= |bs|
    ensures WordAt(file, off + k) == WordAt(bs, k)
  {
    assert forall i :: 0 <= i < |bs| ==> file[off + i] == bs[i];
  }

  lemma HalfThere(file: seq<byte>, off: nat, bs: seq<byte>, k: nat)
    requires At(file, off, bs) && k + 2 <= |bs|
    ensures HalfAt(file, off + k) == HalfAt(bs, k)
  {
    assert forall i :: 0 <= i < |bs| ==> file[off + i] == bs[i];
  }

  /** Where a struct of words stands, field i is at four bytes a piece. */
  lemma {:induction false} FieldThere(file: seq<byte>, off: nat, ws: seq<u32>, i: nat, at: nat)
    requires At(file, off, PutWords(ws)) && i < |ws| && at == off + 4 * i
    ensures at + 4 <= |file| && WordAt(file, at) == ws[i]
    decreases i
  {
    hide WordAt, At, Put32;
    assert PutWords(ws) == Put32(ws[0]) + PutWords(ws[1..]);
    AtParts(file, off, Put32(ws[0]), PutWords(ws[1..]));
    if i == 0 {
      Put32Value(ws[0]);
      WordThere(file, off, Put32(ws[0]), 0);
      AtMeans(file, off, Put32(ws[0]));
    } else {
      FieldThere(file, off + 4, ws[1..], i - 1, at);
    }
  }

  lemma AtMeans(file: seq<byte>, off: nat, bs: seq<byte>)
    requires At(file, off, bs)
    ensures off + |bs| <= |file| && file[off..off + |bs|] == bs
  {
  }

  // ----- the pieces of the file

  /** Header length, payload length, PCM length, time, codec and format, 0, and the payload. */
  ghost predicate VoiceStands(file: seq<byte>, off: nat, f: Frag)
    requires f.Voice?
  {
    && off + 24 + |f.payload| <= |file|
    && WordAt(file, off) == 24 && WordAt(file, off + 4) == |f.payload|
    && WordAt(file, off + 8) == f.pcmlen && WordAt(file, off + 12) == f.time
    && HalfAt(file, off + 16) == f.codec && HalfAt(file, off + 18) == f.codecformat && WordAt(file, off + 20) == 0
    && file[off + 24..off + 24 + |f.payload|] == f.payload
  }

  lemma VoiceWritten(file: seq<byte>, off: nat, f: Frag)
    requires f.Voice? && At(file, off, PutFragment(f))
    ensures VoiceStands(file, off, f)
  {
    hide WordAt, HalfAt, PutWords, Put16, Put32, At;
    var ws := [FRAGMENT_LEN, |f.payload|, f.pcmlen, f.time];
    var a, b, c := Put16(f.codec), Put16(f.codecformat), Put32(0);
    assert PutFragment(f) == PutWords(ws) + (a + b + c) + f.payload;
    AtParts(file, off, PutWords(ws) + (a + b + c), f.payload);
    AtParts(file, off, PutWords(ws), a + b + c);
    FieldThere(file, off, ws, 0, off);
    FieldThere(file, off, ws, 1, off + 4);
    FieldThere(file, off, ws, 2, off + 8);
    FieldThere(file, off, ws, 3, off + 12);
    CodecThere(file, off + 16, f.codec, f.codecformat);
    AtMeans(file, off + 24, f.payload);
  }

  lemma CodecThere(file: seq<byte>, off: nat, codec: u16, codecformat: u16)
    requires At(file, off, Put16(codec) + Put16(codecformat) + Put32(0))
    ensures off + 8 <= |file|
    ensures HalfAt(file, off) == codec && HalfAt(file, off + 2) == codecformat && WordAt(file, off + 4) == 0
  {
    hide WordAt, HalfAt, Put16, Put32, At;
    var a, b, c := Put16(codec), Put16(codecformat), Put32(0);
    AtParts(file, off, a + b, c);
    AtParts(file, off, a, b);
    Put16Value(codec);
    Put16Value(codecformat);
    Put32Value(0);
    AtMeans(file, off + 4, c);
    HalfThere(file, off, a, 0);
    HalfThere(file, off + 2, b, 0);
    WordThere(file, off + 4, c, 0);
  }

  /** Header length, time, and the text in a field of 256 bytes. */
  ghost predicate NoteStands(file: seq<byte>, off: nat, f: Frag)
    requires f.Note?
  {
    && off + 264 <= |file|
    && WordAt(file, off) == 264 && WordAt(file, off + 4) == f.time
    && file[off + 8..off + 264] == Strncpy(f.text, 256)
  }

  lemma NoteWritten(file: seq<byte>, off: nat, f: Frag)
    requires f.Note? && At(file, off, PutFragment(f))
    ensures NoteStands(file, off, f)
  {
    hide WordAt, PutWords, Strncpy;
    var ws := [TEXT_HEAD, f.time];
    AtParts(file, off, PutWords(ws), Strncpy(f.text, TEXT_LEN));
    FieldThere(file, off, ws, 0, off);
    FieldThere(file, off, ws, 1, off + 4);
  }

  ghost predicate FragmentStands(file: seq<byte>, off: nat, f: Frag) {
    if f.Note? then NoteStands(file, off, f) else VoiceStands(file, off, f)
  }

  /** The bytes a fragment takes up. */
  function Room(f: Frag): nat {
    if f.Note? then 264 else 24 + |f.payload|
  }

  function RoomOf(frags: seq<Frag>): nat {
    if frags == [] then 0 else RoomOf(frags[..|frags| - 1]) + Room(frags[|frags| - 1])
  }

  /** Where segment k begins: behind the header of 10552 bytes, and a record of 64 bytes and the fragments of each
      segment before it. */
  function StartOf(segs: seq<Spurt>, k: nat): nat
    requires k <= |segs|
  {
    if k == 0 then 10552 else StartOf(segs, k - 1) + 64 + RoomOf(segs[k - 1].frags)
  }

  lemma {:induction false} RoomIsSize(frags: seq<Frag>)
    ensures RoomOf(frags) == |PutFragments(frags)|
  {
    hide PutFrag, PutWords, Strncpy;
    if frags != [] {
      RoomIsSize(frags[..|frags| - 1]);
    }
  }

  lemma {:induction false} StartIsOffset(segs: seq<Spurt>, k: nat)
    requires k <= |segs|
    ensures StartOf(segs, k) == OffsetOf(segs, k)
  {
    hide PutFragments;
    if k > 0 {
      StartIsOffset(segs, k - 1);
      assert segs[..k][..k - 1] == segs[..k - 1];
      RoomIsSize(segs[k - 1].frags);
    } else {
      assert segs[..0] == [];
    }
  }

  /** The record of segment k: length of record and name, kind, index, fragment count, and the name. */
  ghost predicate RecordStands(file: seq<byte>, start: nat, k: nat, s: Spurt) {
    && start + 64 <= |file|
    && WordAt(file, start) == 64 && WordAt(file, start + 4) == (if s.kind.Text? then 2 else 3)
    && WordAt(file, start + 8) == 0 && WordAt(file, start + 12) == k && WordAt(file, start + 16) == |s.frags|
    && WordAt(file, start + 20) == 0 && WordAt(file, start + 24) == 0 && WordAt(file, start + 28) == 0
    && file[start + 32..start + 64] == s.name
  }

  lemma RecordWritten(file: seq<byte>, start: nat, k: nat, s: Spurt)
    requires k < MOD32 && |s.frags| < MOD32
    requires At(file, start, PutAudio(HeadOf(k, s.kind, |s.frags|)) + s.name)
    ensures RecordStands(file, start, k, s)
  {
    hide WordAt, PutWords;
    var head := HeadOf(k, s.kind, |s.frags|);
    var ws := head.Words();
    assert PutAudio(head) == PutWords(ws);
    AtParts(file, start, PutWords(ws), s.name);
    FieldThere(file, start, ws, 0, start);
    FieldThere(file, start, ws, 1, start + 4);
    FieldThere(file, start, ws, 2, start + 8);
    FieldThere(file, start, ws, 3, start + 12);
    FieldThere(file, start, ws, 4, start + 16);
    FieldThere(file, start, ws, 5, start + 20);
    FieldThere(file, start, ws, 6, start + 24);
    FieldThere(file, start, ws, 7, start + 28);
  }

  /** The entry of segment k in the table: length, kind, validity, offset, time, duration, and the name. */
  ghost predicate EntryStands(file: seq<byte>, off: nat, start: nat, s: Spurt) {
    && off + 64 <= |file|
    && WordAt(file, off) == 64 && WordAt(file, off + 4) == (if s.kind.Text? then 2 else 3)
    && WordAt(file, off + 8) == 1 && WordAt(file, off + 12) == start
    && WordAt(file, off + 16) == TimeOf(s.frags)
    && WordAt(file, off + 20) == Wrap32(LastTime(s.frags) - TimeOf(s.frags))
    && WordAt(file, off + 24) == 0 && WordAt(file, off + 28) == 0
    && file[off + 32..off + 64] == s.name
  }

  /** The times of an entry: a talk spurt begins with its first fragment that has a time, a text is where it is; and the
      duration reaches up to the last fragment. */
  lemma {:induction false} TimesMean(frags: seq<Frag>)
    requires frags != []
    ensures LastTime(frags) == frags[|frags| - 1].time
    ensures frags[|frags| - 1].Note? ==> TimeOf(frags) == frags[|frags| - 1].time
    ensures (forall i :: 0 <= i < |frags| ==> frags[i].Voice?) ==>
              exists k :: 0 <= k < |frags| && frags[k].time == TimeOf(frags)
                          && (forall j :: 0 <= j < k ==> frags[j].time == 0)
                          && (frags[k].time == 0 ==> k == |frags| - 1)
  {
    if forall i :: 0 <= i < |frags| ==> frags[i].Voice? {
      var n := |frags| - 1;
      if n > 0 {
        TimesMean(frags[..n]);
        var k :| 0 <= k < n && frags[..n][k].time == TimeOf(frags[..n])
                 && (forall j :: 0 <= j < k ==> frags[..n][j].time == 0)
                 && (frags[..n][k].time == 0 ==> k == n - 1);
        assert forall j :: 0 <= j < k ==> frags[j].time == frags[..n][j].time;
        if frags[k].time == 0 {
          assert frags[n].time == TimeOf(frags);
        } else {
          assert frags[k].time == TimeOf(frags);
        }
      } else {
        assert frags[0].time == TimeOf(frags);
      }
    }
  }

  lemma EntryWritten(file: seq<byte>, off: nat, start: nat, s: Spurt)
    requires start < MOD32 && At(file, off, PutSegment(Entry(s.kind, s.name, s.frags, start)))
    ensures EntryStands(file, off, start, s)
  {
    hide WordAt, PutWords, TimeOf, LastTime;
    var entry := Entry(s.kind, s.name, s.frags, start);
    var ws := entry.Words();
    AtParts(file, off, PutWords(ws), s.name);
    FieldThere(file, off, ws, 0, off);
    FieldThere(file, off, ws, 1, off + 4);
    FieldThere(file, off, ws, 2, off + 8);
    FieldThere(file, off, ws, 3, off + 12);
    FieldThere(file, off, ws, 4, off + 16);
    FieldThere(file, off, ws, 5, off + 20);
    FieldThere(file, off, ws, 6, off + 24);
    FieldThere(file, off, ws, 7, off + 28);
  }

  /** The finished header: the mark, the size of the whole file, where the table is and how many entries it has. The
      other fields are those the recording was started with. */
  ghost predicate HeaderStands(file: seq<byte>, boot: Header, table: nat, count: nat) {
    && |file| >= 10552
    && file[..8] == [86, 69, 78, 84, 82, 69, 67, 68]
    && WordAt(file, 8) == |file| && WordAt(file, 20) == table && WordAt(file, 24) == count
    && WordAt(file, 12) == boot.headlen && WordAt(file, 16) == boot.unknown1 && WordAt(file, 28) == boot.vrfversion
    && WordAt(file, 32) == boot.unknown2 && WordAt(file, 36) == boot.unknown3 && WordAt(file, 40) == boot.infolen
    && WordAt(file, 44) == boot.codec && WordAt(file, 48) == boot.codecformat && WordAt(file, 52) == boot.unknown4
    && file[56..10552] == boot.info
  }

  lemma HeaderWritten(file: seq<byte>, h: Header)
    requires h.Valid() && At(file, 0, PutHeader(h))
    ensures |file| >= 10552 && file[..8] == h.headid && file[56..10552] == h.info
    ensures WordAt(file, 8) == h.size && WordAt(file, 12) == h.headlen && WordAt(file, 16) == h.unknown1
    ensures WordAt(file, 20) == h.segtable && WordAt(file, 24) == h.segcount && WordAt(file, 28) == h.vrfversion
    ensures WordAt(file, 32) == h.unknown2 && WordAt(file, 36) == h.unknown3 && WordAt(file, 40) == h.infolen
    ensures WordAt(file, 44) == h.codec && WordAt(file, 48) == h.codecformat && WordAt(file, 52) == h.unknown4
  {
    hide WordAt, PutWords;
    var ws := h.Words();
    AtParts(file, 0, h.headid + PutWords(ws), h.info);
    AtParts(file, 0, h.headid, PutWords(ws));
    FieldThere(file, 8, ws, 0, 8);
    FieldThere(file, 8, ws, 1, 12);
    FieldThere(file, 8, ws, 2, 16);
    FieldThere(file, 8, ws, 3, 20);
    FieldThere(file, 8, ws, 4, 24);
    FieldThere(file, 8, ws, 5, 28);
    FieldThere(file, 8, ws, 6, 32);
    FieldThere(file, 8, ws, 7, 36);
    FieldThere(file, 8, ws, 8, 40);
    FieldThere(file, 8, ws, 9, 44);
    FieldThere(file, 8, ws, 10, 48);
    FieldThere(file, 8, ws, 11, 52);
  }

  // ----- the file

  /** A recording that was stopped in order has its header, and the table behind the last segment, and nothing else. */
  lemma HeaderOfFile(boot: Header, segs: seq<Spurt>)
    requires boot.Valid() && Fits(segs)
    ensures var file, table := FinalImage(boot, segs), StartOf(segs, |segs|); (
              |file| == table + 64 * |segs| && HeaderStands(file, boot, table, |segs|))
  {
    hide PutHeader, Bodies, Table, Size, WordAt;
    var file, h := FinalImage(boot, segs), FinalHeader(boot, segs);
    StartIsOffset(segs, |segs|);
    assert segs[..|segs|] == segs;
    assert At(file, 0, PutHeader(h));
    HeaderWritten(file, h);
  }

  lemma NamedSpurtAt(boot: Header, segs: seq<Spurt>, k: nat)
    requires boot.Valid() && k < |segs|
    ensures At(FinalImage(boot, segs), OffsetOf(segs, k),
               PutAudio(HeadOf(k, segs[k].kind, |segs[k].frags|)) + segs[k].name)
  {
    hide PutHeader, Bodies, Table, PutAudio, PutFragments, Size, At, OffsetOf;
    var file, s := FinalImage(boot, segs), segs[k];
    var head := PutAudio(HeadOf(k, s.kind, |s.frags|));
    AtSeam(PutHeader(FinalHeader(boot, segs)), Bodies(segs, |segs|), Table(segs));
    BodyAt(file, segs, |segs|, k);
    assert Body(k, s, |s.frags|) == head + s.name + PutFragments(s.frags);
    AtParts(file, OffsetOf(segs, k), head + s.name, PutFragments(s.frags));
  }

  lemma RecordOfFile(boot: Header, segs: seq<Spurt>, k: nat)
    requires boot.Valid() && Fits(segs) && k < |segs|
    ensures RecordStands(FinalImage(boot, segs), StartOf(segs, k), k, segs[k])
  {
    hide FinalImage, PutAudio, RecordStands, Size, PutFragments, At;
    StartIsOffset(segs, k);
    FragCountFits(segs, k);
    SizePrefix(segs, k);
    NamedSpurtAt(boot, segs, k);
    RecordWritten(FinalImage(boot, segs), OffsetOf(segs, k), k, segs[k]);
  }

  lemma EntryAt(boot: Header, segs: seq<Spurt>, k: nat)
    requires boot.Valid() && k < |segs|
    ensures At(FinalImage(boot, segs), OffsetOf(segs, |segs|) + 64 * k,
               PutSegment(Entry(segs[k].kind, segs[k].name, segs[k].frags, OffsetOf(segs, k))))
  {
    hide PutHeader, Bodies, Table, PutSegment, Entry, Size;
    var entry := PutSegment(Entry(segs[k].kind, segs[k].name, segs[k].frags, OffsetOf(segs, k)));
    var file, front := FinalImage(boot, segs), PutHeader(FinalHeader(boot, segs)) + Bodies(segs, |segs|);
    TableAt(segs, k);
    assert segs[..|segs|] == segs;
    var table := Table(segs);
    assert file == front + table && |front| == OffsetOf(segs, |segs|);
    assert file[|front| + 64 * k..|front| + 64 * k + 64] == table[64 * k..64 * k + 64];
  }

  lemma EntryOfFile(boot: Header, segs: seq<Spurt>, k: nat)
    requires boot.Valid() && Fits(segs) && k < |segs|
    ensures EntryStands(FinalImage(boot, segs), StartOf(segs, |segs|) + 64 * k, StartOf(segs, k), segs[k])
  {
    hide FinalImage, PutSegment, EntryStands, Size, At, TimeOf, LastTime, Entry;
    StartIsOffset(segs, k);
    StartIsOffset(segs, |segs|);
    SizePrefix(segs, k);
    EntryAt(boot, segs, k);
    EntryWritten(FinalImage(boot, segs), OffsetOf(segs, |segs|) + 64 * k, OffsetOf(segs, k), segs[k]);
  }

  /** Segment k stands with its record, and its table entry says so. */
  lemma SegmentOfFile(boot: Header, segs: seq<Spurt>, k: nat)
    requires boot.Valid() && Fits(segs) && k < |segs|
    ensures var file, start := FinalImage(boot, segs), StartOf(segs, k); (
              && RecordStands(file, start, k, segs[k])
              && EntryStands(file, StartOf(segs, |segs|) + 64 * k, start, segs[k]))
  {
    hide *;
    RecordOfFile(boot, segs, k);
    EntryOfFile(boot, segs, k);
  }

  /** Fragment i of segment k stands behind the fragments before it. */
  lemma FragmentOfFile(boot: Header, segs: seq<Spurt>, k: nat, i: nat)
    requires boot.Valid() && k < |segs| && i < |segs[k].frags|
    ensures FragmentStands(FinalImage(boot, segs), StartOf(segs, k) + 64 + RoomOf(segs[k].frags[..i]), segs[k].frags[i])
  {
    hide FinalImage, PutFragment, PutFragments, PutAudio, At, Size, VoiceStands, NoteStands;
    var file, frags := FinalImage(boot, segs), segs[k].frags;
    StartIsOffset(segs, k);
    SpurtAt(boot, segs, k);
    FragmentAt(file, OffsetOf(segs, k) + 64, frags, i);
    RoomIsSize(frags[..i]);
    var at := OffsetOf(segs, k) + 64 + |PutFragments(frags[..i])|;
    if frags[i].Note? {
      NoteWritten(file, at, frags[i]);
    } else {
      VoiceWritten(file, at, frags[i]);
    }
  }
}
