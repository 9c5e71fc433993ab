/** The bytes a recording puts on disk, as functions of its list of spurts. */
module VrfImage {
  import opened Bytes
  import opened VrfFormat
  import opened VrfLog

  function KindCode(k: Kind): u32 {
    if k.Ext? then TYPE_EXT else TYPE_TEXT
  }

  function PutFragment(f: Frag): (r: seq<byte>)
    ensures |r| >= FRAGMENT_LEN
  {
    match f
    case Voice(time, pcmlen, codec, codecformat, payload) =>
      PutFrag(FragHead(FRAGMENT_LEN, |payload|, pcmlen, time, codec, codecformat, 0)) + payload
    case Note(time, text) =>
      PutWords([TEXT_HEAD, time]) + Strncpy(text, TEXT_LEN)
  }

  function PutFragments(frags: seq<Frag>): (r: seq<byte>)
    ensures |r| >= 24 * |frags|
  {
    if frags == [] then []
    else PutFragments(frags[..|frags| - 1]) + PutFragment(frags[|frags| - 1])
  }

  function HeadOf(index: nat, kind: Kind, count: nat): AudioHead {
    AudioHead(AUDIO_HEAD, KindCode(kind), 0, Wrap32(index), Wrap32(count), 0, 0, 0)
  }

  /** A spurt on disk, with the fragment count that its audio record shows. */
  function Body(index: nat, s: Spurt, count: nat): (r: seq<byte>)
    ensures |r| == BodySize(s)
  {
    PutAudio(HeadOf(index, s.kind, count)) + Tail(s.name, s.frags)
  }

  /** The part of a spurt after its audio record. */
  function Tail(name: Name, frags: seq<Frag>): seq<byte> {
    name + PutFragments(frags)
  }

  function BodySize(s: Spurt): (r: nat)
    ensures r >= 64
  {
    AUDIO_LEN + |Tail(s.name, s.frags)|
  }

  function Size(segs: seq<Spurt>): nat {
    if segs == [] then 0 else Size(segs[..|segs| - 1]) + BodySize(segs[|segs| - 1])
  }

  /** The spurts in index order; the first `done` of them show their fragment counts, the others still show 0. */
  function Bodies(segs: seq<Spurt>, done: nat): (r: seq<byte>)
    ensures |r| == Size(segs)
  {
    if segs == [] then []
    else
      var n := |segs| - 1;
      Bodies(segs[..n], done) + Body(n, segs[n], Shown(segs[n], n, done))
  }

  /** The fragment count that spurt i shows. */
  function Shown(s: Spurt, i: nat, done: nat): nat {
    if i < done then |s.frags| else 0
  }

  function OffsetOf(segs: seq<Spurt>, i: nat): nat
    requires i <= |segs|
  {
    HEADER_LEN + Size(segs[..i])
  }

  /** The first nonzero voice time, or the time of the last note. */
  function TimeOf(frags: seq<Frag>): u32 {
    if frags == [] then 0
    else
      var earlier := TimeOf(frags[..|frags| - 1]);
      var last := frags[|frags| - 1];
      if last.Note? || earlier == 0 then last.time else earlier
  }

  function LastTime(frags: seq<Frag>): u32 {
    if frags == [] then 0 else frags[|frags| - 1].time
  }

  function Entry(kind: Kind, name: Name, frags: seq<Frag>, offset: nat): Segment {
    Segment(SEGMENT_LEN, KindCode(kind), 1, Wrap32(offset), TimeOf(frags), Wrap32(LastTime(frags) - TimeOf(frags)), 0,
            0, name)
  }

  function Table(segs: seq<Spurt>): (r: seq<byte>)
    ensures |r| == 64 * |segs|
  {
    if segs == [] then []
    else
      var n := |segs| - 1;
      Table(segs[..n]) + PutSegment(Entry(segs[n].kind, segs[n].name, segs[n].frags, OffsetOf(segs, n)))
  }

  /** What the file holds when the program dies right after an event. */
  function CrashImage(boot: Header, log: Log): seq<byte>
    requires boot.Valid() && log.written <= |log.segs|
  {
    PutHeader(boot) + Bodies(log.segs[..log.written], log.Done())
  }

  function FinalHeader(boot: Header, segs: seq<Spurt>): Header {
    var end := HEADER_LEN + Size(segs);
    boot.(headid := HEAD_ID, segcount := Wrap32(|segs|), segtable := Wrap32(end),
          size := Wrap32(end + 64 * |segs|))
  }

  /** A recording that was closed in order. */
  function FinalImage(boot: Header, segs: seq<Spurt>): seq<byte>
    requires boot.Valid()
  {
    PutHeader(FinalHeader(boot, segs)) + Bodies(segs, |segs|) + Table(segs)
  }

  /** The whole recording stays below 4 GiB, so that no 32 bit offset wraps. */
  predicate Fits(segs: seq<Spurt>) {
    HEADER_LEN + Size(segs) + 64 * |segs| < MOD32
  }

  // ----- facts

  lemma {:induction false} SizePrefix(segs: seq<Spurt>, i: nat)
    requires i <= |segs|
    ensures Size(segs[..i]) <= Size(segs)
    ensures 64 * |segs| <= Size(segs)
    decreases |segs|
  {
    hide BodySize;
    if i < |segs| {
      var n := |segs| - 1;
      assert segs[..n][..i] == segs[..i];
      SizePrefix(segs[..n], i);
    } else {
      assert segs[..i] == segs;
      if segs != [] {
        SizePrefix(segs[..i - 1], 0);
      }
    }
  }

  lemma BodiesSplit(segs: seq<Spurt>, done: nat)
    requires segs != []
    ensures var n := |segs| - 1; (
              && Bodies(segs, done) == Bodies(segs[..n], done) + Body(n, segs[n], Shown(segs[n], n, done))
              && |Bodies(segs[..n], done)| == Size(segs[..n]))
  {
    hide Body, Shown;
  }

  lemma TimesSnoc(frags: seq<Frag>, f: Frag)
    ensures TimeOf(frags + [f]) == if f.Note? || TimeOf(frags) == 0 then f.time else TimeOf(frags)
    ensures LastTime(frags + [f]) == f.time
  {
    assert (frags + [f])[..|frags|] == frags;
  }

  /** Two lists that differ only in the stopped flags have the same bytes. */
  ghost predicate SameContents(a: seq<Spurt>, b: seq<Spurt>) {
    && |a| == |b|
    && forall i :: 0 <= i < |a| ==>
         a[i].kind == b[i].kind && a[i].name == b[i].name && a[i].frags == b[i].frags
  }

  lemma {:induction false} SameContentsSameBytes(a: seq<Spurt>, b: seq<Spurt>, done: nat)
    requires SameContents(a, b)
    ensures Size(a) == Size(b)
    ensures Bodies(a, done) == Bodies(b, done)
    ensures Table(a) == Table(b)
  {
    hide PutAudio, PutSegment, Tail;
    if a != [] {
      var n := |a| - 1;
      SameContentsSameBytes(a[..n], b[..n], done);
      assert OffsetOf(a, n) == OffsetOf(b, n);
    }
  }

  lemma PutFragmentsSnoc(frags: seq<Frag>, f: Frag)
    ensures PutFragments(frags + [f]) == PutFragments(frags) + PutFragment(f)
  {
    assert (frags + [f])[..|frags|] == frags;
  }

  /** One more fragment at the end of a spurt appends exactly its bytes. */
  lemma BodySnoc(index: nat, s: Spurt, f: Frag, t: Spurt, count: nat)
    requires t.kind == s.kind && t.name == s.name && t.frags == s.frags + [f]
    ensures Body(index, t, count) == Body(index, s, count) + PutFragment(f)
  {
    PutFragmentsSnoc(s.frags, f);
    Reassociate(PutAudio(HeadOf(index, s.kind, count)), s.name, PutFragments(s.frags), PutFragment(f));
  }

  lemma Reassociate(a: seq<byte>, b: seq<byte>, c: seq<byte>, d: seq<byte>)
    ensures a + (b + (c + d)) == a + (b + c) + d
    ensures a + (b + (c + d)) == (a + b + c) + d
  {
  }

  lemma BodiesExtendLast(segs: seq<Spurt>, s: Spurt, f: Frag, done: nat)
    requires segs != [] && done < |segs|
    requires s.kind == segs[|segs| - 1].kind && s.name == segs[|segs| - 1].name
    requires s.frags == segs[|segs| - 1].frags + [f]
    ensures Bodies(segs[|segs| - 1 := s], done) == Bodies(segs, done) + PutFragment(f)
  {
    hide Body;
    var n := |segs| - 1;
    assert segs[n := s][..n] == segs[..n];
    BodySnoc(n, segs[n], f, s, 0);
    Reassociate([], Bodies(segs[..n], done), Body(n, segs[n], 0), PutFragment(f));
  }

  /** Patching the audio record of spurt d on disk is what turns `done` from d to d + 1. */
  lemma {:induction false} PatchNext(prefix: seq<byte>, segs: seq<Spurt>, d: nat)
    requires d < |segs|
    requires |prefix| == HEADER_LEN
    ensures WriteAt(prefix + Bodies(segs, d), OffsetOf(segs, d), PutAudio(HeadOf(d, segs[d].kind, |segs[d].frags|)))
         == prefix + Bodies(segs, d + 1)
    decreases |segs|
  {
    hide PutAudio, Body, BodySize, WriteAt;
    if d == |segs| - 1 {
      PatchLast(prefix, segs);
    } else {
      var n := |segs| - 1;
      var init := segs[..n];
      assert init[..d] == segs[..d];
      PatchNext(prefix, init, d);
      OffsetInside(init, d);
      var head := PutAudio(HeadOf(d, segs[d].kind, |segs[d].frags|));
      PatchUnder(prefix, Bodies(init, d), Bodies(init, d + 1), Body(n, segs[n], 0), OffsetOf(segs, d), head);
    }
  }

  lemma PatchLast(prefix: seq<byte>, segs: seq<Spurt>)
    requires segs != [] && |prefix| == HEADER_LEN
    ensures var d := |segs| - 1; (
              WriteAt(prefix + Bodies(segs, d), OffsetOf(segs, d), PutAudio(HeadOf(d, segs[d].kind, |segs[d].frags|)))
              == prefix + Bodies(segs, d + 1))
  {
    hide PutAudio, Tail;
    var d := |segs| - 1;
    BodiesPatchedBelow(segs[..d], d, d + 1);
    PatchHere(prefix, Bodies(segs[..d], d), PutAudio(HeadOf(d, segs[d].kind, 0)), Tail(segs[d].name, segs[d].frags),
              PutAudio(HeadOf(d, segs[d].kind, |segs[d].frags|)));
  }

  lemma PatchUnder(prefix: seq<byte>, a: seq<byte>, b: seq<byte>, rest: seq<byte>, off: nat, head: seq<byte>)
    requires WriteAt(prefix + a, off, head) == prefix + b
    requires off + |head| <= |prefix + a|
    ensures WriteAt(prefix + (a + rest), off, head) == prefix + (b + rest)
  {
    WriteAtLeft(prefix + a, rest, off, head);
    assert prefix + (a + rest) == (prefix + a) + rest;
    assert prefix + (b + rest) == (prefix + b) + rest;
  }

  lemma PatchHere(prefix: seq<byte>, a: seq<byte>, was: seq<byte>, tail: seq<byte>, head: seq<byte>)
    requires |was| == |head|
    ensures WriteAt(prefix + (a + (was + tail)), |prefix| + |a|, head) == prefix + (a + (head + tail))
  {
    WriteAtSeam(prefix + a, was + tail, head);
    assert (was + tail)[|head|..] == tail;
    assert prefix + (a + (was + tail)) == (prefix + a) + (was + tail);
    assert prefix + (a + (head + tail)) == (prefix + a) + (head + tail);
  }

  /** A spurt's audio record lies inside the bytes of the list. */
  lemma OffsetInside(segs: seq<Spurt>, d: nat)
    requires d < |segs|
    ensures OffsetOf(segs, d) + AUDIO_LEN + NAME_LEN <= HEADER_LEN + Size(segs)
  {
    hide BodySize;
    SizePrefix(segs, d + 1);
    assert segs[..d + 1][..d] == segs[..d];
  }

  /** Counts of spurts past the end of the list do not matter. */
  lemma {:induction false} BodiesPatchedBelow(segs: seq<Spurt>, d: nat, e: nat)
    requires |segs| <= d && |segs| <= e
    ensures Bodies(segs, d) == Bodies(segs, e)
  {
    if segs != [] {
      BodiesPatchedBelow(segs[..|segs| - 1], d, e);
    }
  }

  /** `_v3_vrf_record_finish`: the table goes to the end of the file, then the final header over the temporary one. */
  function FinishFile(file: seq<byte>, header: Header, table: seq<byte>): seq<byte>
    requires header.Valid()
  {
    var segtable := Wrap32(|file|);
    var tabled := if table != [] then WriteAt(file, segtable, table) else file;
    WriteAt(tabled, 0, PutHeader(header.(segtable := segtable, headid := HEAD_ID, size := Wrap32(|tabled|))))
  }

  lemma FinishBytes(file: seq<byte>, header: Header, table: seq<byte>)
    requires header.Valid() && |file| + |table| < MOD32
    ensures FinishFile(file, header, table)
         == WriteAt(file + table, 0,
                    PutHeader(header.(segtable := |file|, headid := HEAD_ID, size := |file| + |table|)))
  {
    hide WriteAt, PutHeader;
    WriteAtEnd(file, table);
    assert file + [] == file;
  }

  /** Finishing any file made of a header and complete spurts gives the final image. */
  lemma FinishIsFinal(boot: Header, was: seq<byte>, header: Header, segs: seq<Spurt>)
    requires boot.Valid() && |was| == HEADER_LEN && Fits(segs)
    requires header == boot.(headid := header.headid, segcount := Wrap32(|segs|)) && |header.headid| == 8
    ensures FinishFile(was + Bodies(segs, |segs|), header, Table(segs)) == FinalImage(boot, segs)
  {
    hide Bodies, Table, PutHeader, WriteAt, FinishFile, Size;
    var bodies := Bodies(segs, |segs|);
    var table := Table(segs);
    FinishBytes(was + bodies, header, table);
    assert header.(segtable := |was + bodies|, headid := HEAD_ID, size := |was + bodies| + |table|)
        == FinalHeader(boot, segs);
    FinalSeam(was, bodies, table, PutHeader(FinalHeader(boot, segs)));
  }

  lemma FinalSeam(was: seq<byte>, bodies: seq<byte>, table: seq<byte>, last: seq<byte>)
    requires |last| == |was|
    ensures WriteAt(was + bodies + table, 0, last) == last + bodies + table
  {
    WriteAtStart(was, bodies + table, last);
    assert was + bodies + table == was + (bodies + table);
    assert last + bodies + table == last + (bodies + table);
  }
}
