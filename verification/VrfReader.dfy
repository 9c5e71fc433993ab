/** Reading a finished recording: the segment table, and one segment's fragments in order. */
module VrfReader {
  import opened Bytes
  import opened VrfFormat
  import opened VrfLog
  import opened VrfImage
  import opened VrfRecover
  import VrfRecovery

  /** What `v3_vrf_get_audio` hands to the decoder or to the caller. */
  datatype Played = Sound(codec: u32, codecformat: u32, data: seq<byte>) | Line(text: seq<byte>)

  datatype Read = Read(played: Played, next: nat)

  /** One fragment with its payload. */
  function GetPlayed(file: seq<byte>, header: Header, kind: u32, off: nat): (r: Result<Read>)
    ensures r.Ok? ==> r.value.next <= |file|
  {
    var found := GetFragment(file, kind, off);
    if found.Err? then Err(found.error)
    else
      var head, start, len := found.value.head, off + found.value.headlen, found.value.datalen;
      if head.headlen == 0 || len == 0 || len > MAX_FRAGLEN then Err(Malformed)
      else if start + len > |file| then Err(Eof)
      else
        var data := file[start..start + len];
        var played :=
          if kind == TYPE_TEXT then Line(data)
          else if kind == TYPE_AUDIO then Sound(header.codec, header.codecformat, data)
          else Sound(head.codec, head.codecformat, data);
        Ok(Read(played, start + len))
  }

  /** The next n fragments from offset off. */
  function GetAll(file: seq<byte>, header: Header, kind: u32, off: nat, n: nat): Result<seq<Played>>
    decreases n
  {
    if n == 0 then Ok([])
    else
      var one := GetPlayed(file, header, kind, off);
      if one.Err? then Err(one.error)
      else
        var rest := GetAll(file, header, kind, one.value.next, n - 1);
        if rest.Err? then rest else Ok([one.value.played] + rest.value)
  }

  /** Entry `id` of the table on disk, with the bounds checks of `_v3_vrf_get_table` and `_v3_vrf_get_segment`. */
  function TableEntry(file: seq<byte>, header: Header, id: u32): Result<Segment> {
    var size := SEGMENT_LEN * header.segcount;
    if header.segtable == 0 || size == 0 || header.segtable + size > |file| then Err(Malformed)
    else if id >= header.segcount then Err(Malformed)
    else
      var at := header.segtable + 64 * id;
      Ok(GetSegment(file[at..at + SEGMENT_LEN]))
  }

  /** Where the fragments of an entry begin, and how many there are. */
  function AudioOf(file: seq<byte>, header: Header, g: Segment): Result<AudioHead> {
    if g.offset == 0 || g.offset >= header.segtable || g.offset >= |file| then Err(Malformed)
    else if g.offset + AUDIO_LEN > |file| then Err(Eof)
    else Ok(GetAudio(file[g.offset..g.offset + AUDIO_LEN]))
  }

  /** Calling `v3_vrf_get_audio` on segment `id` until it has nothing more. */
  function ReadSegment(file: seq<byte>, id: u32): Result<seq<Played>> {
    if |file| < HEADER_LEN then Err(Eof)
    else
      var header := GetHeader(file[..HEADER_LEN]);
      var entry := TableEntry(file, header, id);
      if entry.Err? then Err(entry.error)
      else
        var audio := AudioOf(file, header, entry.value);
        if audio.Err? then Err(audio.error)
        else GetAll(file, header, audio.value.kind, entry.value.offset + audio.value.headlen, audio.value.fragcount)
  }

  /** The caller's loop: `fragcount` counts down and `off` moves on. */
  method PlaySegment(file: seq<byte>, id: u32) returns (r: Result<seq<Played>>)
    ensures r == ReadSegment(file, id)
  {
    hide GetHeader, TableEntry, AudioOf, GetPlayed;
    if |file| < HEADER_LEN {
      return Err(Eof);
    }
    var header := GetHeader(file[..HEADER_LEN]);
    var entry := TableEntry(file, header, id);
    if entry.Err? {
      return Err(entry.error);
    }
    var audio := AudioOf(file, header, entry.value);
    if audio.Err? {
      return Err(audio.error);
    }
    var kind := audio.value.kind;
    var fragcount: nat := audio.value.fragcount;
    var off: nat := entry.value.offset + audio.value.headlen;
    ghost var whole := GetAll(file, header, kind, off, fragcount);
    var played: seq<Played> := [];
    PrependNone(whole);
    while fragcount > 0
      invariant whole == Prepend(played, GetAll(file, header, kind, off, fragcount))
    {
      var one := GetPlayed(file, header, kind, off);
      if one.Err? {
        return Err(one.error);
      }
      PrependSnoc(played, one.value.played, GetAll(file, header, kind, one.value.next, fragcount - 1));
      played := played + [one.value.played];
      off := one.value.next;
      fragcount := fragcount - 1;
    }
    assert played + [] == played;
    r := Ok(played);
  }

  function Prepend(front: seq<Played>, back: Result<seq<Played>>): Result<seq<Played>> {
    if back.Err? then back else Ok(front + back.value)
  }

  lemma PrependNone(back: Result<seq<Played>>)
    ensures Prepend([], back) == back
  {
    if back.Ok? {
      assert [] + back.value == back.value;
    }
  }

  lemma PrependSnoc(front: seq<Played>, one: Played, back: Result<seq<Played>>)
    ensures Prepend(front, if back.Err? then back else Ok([one] + back.value)) == Prepend(front + [one], back)
  {
    if back.Ok? {
      assert front + ([one] + back.value) == front + [one] + back.value;
    }
  }

  // ----- reading back what was recorded

  /** What playing a fragment gives. */
  function PlayedOf(f: Frag): Played {
    match f
    case Voice(_, _, codec, codecformat, payload) => Sound(codec, codecformat, payload)
    case Note(_, text) => Line(Strncpy(text, TEXT_LEN))
  }

  function PlayedAll(frags: seq<Frag>): seq<Played> {
    if frags == [] then [] else [PlayedOf(frags[0])] + PlayedAll(frags[1..])
  }

  /** The reader refuses empty payloads and payloads above its limit. */
  predicate Playable(f: Frag) {
    f.Voice? ==> 0 < |f.payload| <= MAX_FRAGLEN
  }

  predicate AllPlayable(frags: seq<Frag>) {
    frags == [] || (Playable(frags[0]) && AllPlayable(frags[1..]))
  }

  function Playback(frags: seq<Frag>): Result<seq<Played>> {
    if AllPlayable(frags) then Ok(PlayedAll(frags)) else Err(Malformed)
  }

  lemma PlayOne(file: seq<byte>, header: Header, off: nat, f: Frag)
    requires At(file, off, PutFragment(f))
    ensures GetPlayed(file, header, if f.Note? then TYPE_TEXT else TYPE_EXT, off)
         == if Playable(f) then Ok(Read(PlayedOf(f), off + |PutFragment(f)|)) else Err(Malformed)
  {
    hide PutFrag, PutWords, Strncpy, Word;
    match f
    case Voice(time, pcmlen, codec, codecformat, payload) =>
      var head := FragHead(FRAGMENT_LEN, |payload|, pcmlen, time, codec, codecformat, 0);
      VrfRecovery.VoiceRead(file, off, head, payload);
      AtParts(file, off, PutFrag(head), payload);
    case Note(time, text) =>
      var bytes := Strncpy(text, TEXT_LEN);
      VrfRecovery.NoteRead(file, off, time, bytes);
      AtParts(file, off, PutWords([TEXT_HEAD, time]), bytes);
      NoteHeadLen(file, off);
  }

  /** The eight bytes read of a note start with its header length, so the length is not zero. */
  lemma NoteHeadLen(file: seq<byte>, off: nat)
    requires off + 8 <= |file| && Word(file, off) == TEXT_HEAD
    ensures GetFragment(file, TYPE_TEXT, off).value.head.headlen == TEXT_HEAD
  {
    var s := file[off..off + 8] + Zeros(16);
    assert file[off..off + 8][..4] == file[off..off + 4];
    assert s[..16][..4] == file[off..off + 8][..4];
    assert |s[..16]| == 16;
  }

  /** Reading the rest of a uniform spurt, and then `more` fragments behind it. */
  lemma {:induction false} PlayRest(file: seq<byte>, header: Header, off: nat, s: Spurt, k: nat, more: nat)
    requires VrfRecovery.Uniform(s) && k <= |s.frags|
    requires At(file, off, PutFragments(s.frags))
    ensures GetAll(file, header, KindCode(s.kind), off + |PutFragments(s.frags[..k])|, |s.frags| - k + more)
         == if AllPlayable(s.frags[k..])
            then Prepend(PlayedAll(s.frags[k..]),
                         GetAll(file, header, KindCode(s.kind), off + |PutFragments(s.frags)|, more))
            else Err(Malformed)
    decreases |s.frags| - k
  {
    hide GetPlayed, PlayedOf, Playable, PutFragment, PutFragments;
    if k < |s.frags| {
      VrfRecovery.FragmentAt(file, off, s.frags, k);
      PlayOne(file, header, off + |PutFragments(s.frags[..k])|, s.frags[k]);
      VrfRecovery.SnocSize(s.frags, k);
      PlayRest(file, header, off, s, k + 1, more);
      assert s.frags[k..][0] == s.frags[k] && s.frags[k..][1..] == s.frags[k + 1..];
      PrependCons(PlayedOf(s.frags[k]), PlayedAll(s.frags[k + 1..]),
                  GetAll(file, header, KindCode(s.kind), off + |PutFragments(s.frags)|, more));
    } else {
      assert s.frags[..k] == s.frags;
      PrependNone(GetAll(file, header, KindCode(s.kind), off + |PutFragments(s.frags)|, more));
    }
  }

  lemma PrependCons(one: Played, front: seq<Played>, back: Result<seq<Played>>)
    ensures Prepend([one] + front, back)
         == if Prepend(front, back).Err? then Prepend(front, back) else Ok([one] + Prepend(front, back).value)
  {
    if back.Ok? {
      assert [one] + front + back.value == [one] + (front + back.value);
    }
  }

  lemma {:induction false} TableAt(segs: seq<Spurt>, k: nat)
    requires k < |segs|
    ensures At(Table(segs), 64 * k,
               PutSegment(Entry(segs[k].kind, segs[k].name, segs[k].frags, OffsetOf(segs, k))))
    decreases |segs|
  {
    hide PutSegment, Size, TimeOf, LastTime;
    var n := |segs| - 1;
    if k < n {
      TableAt(segs[..n], k);
      assert segs[..n][..k] == segs[..k];
      assert OffsetOf(segs[..n], k) == OffsetOf(segs, k);
    }
  }

  /** Entry k of the table of a finished recording is spurt k, with its index as position. */
  lemma EntryOf(boot: Header, segs: seq<Spurt>, k: nat)
    requires boot.Valid() && Fits(segs) && k < |segs|
    ensures var file := FinalImage(boot, segs); (
              && |file| >= HEADER_LEN
              && GetHeader(file[..HEADER_LEN]) == FinalHeader(boot, segs)
              && TableEntry(file, FinalHeader(boot, segs), k)
              == Ok(Entry(segs[k].kind, segs[k].name, segs[k].frags, OffsetOf(segs, k))))
  {
    hide PutHeader, GetHeader, Bodies, Table, PutSegment, GetSegment, Size;
    var header := FinalHeader(boot, segs);
    var file := FinalImage(boot, segs);
    assert file[..HEADER_LEN] == PutHeader(header);
    GetHeaderPutHeader(header);
    TableAt(segs, k);
    var entry := Entry(segs[k].kind, segs[k].name, segs[k].frags, OffsetOf(segs, k));
    GetSegmentPutSegment(entry);
    var end := HEADER_LEN + Size(segs);
    assert file[end..] == Table(segs);
    var at := end + 64 * k;
    assert file[at..at + SEGMENT_LEN] == file[end..][64 * k..64 * k + SEGMENT_LEN];
  }

  /** Where spurt k stands in a finished recording. */
  lemma SpurtAt(boot: Header, segs: seq<Spurt>, k: nat)
    requires boot.Valid() && k < |segs|
    ensures var file := FinalImage(boot, segs); (
              && At(file, OffsetOf(segs, k), PutAudio(HeadOf(k, segs[k].kind, |segs[k].frags|)))
              && At(file, OffsetOf(segs, k) + 64, PutFragments(segs[k].frags)))
  {
    hide PutHeader, Bodies, Table, PutAudio, PutFragments, Size, At, OffsetOf;
    var file := FinalImage(boot, segs);
    var s := segs[k];
    var head := PutAudio(HeadOf(k, s.kind, |s.frags|));
    AtSeam(PutHeader(FinalHeader(boot, segs)), Bodies(segs, |segs|), Table(segs));
    VrfRecovery.BodyAt(file, segs, |segs|, k);
    AtParts(file, OffsetOf(segs, k), head, Tail(s.name, s.frags));
    AtParts(file, OffsetOf(segs, k) + AUDIO_LEN, s.name, PutFragments(s.frags));
  }

  lemma AudioOfSpurt(boot: Header, segs: seq<Spurt>, k: nat)
    requires boot.Valid() && Fits(segs) && k < |segs|
    ensures var file := FinalImage(boot, segs);
            var g := Entry(segs[k].kind, segs[k].name, segs[k].frags, OffsetOf(segs, k)); (
              && AudioOf(file, FinalHeader(boot, segs), g) == Ok(HeadOf(k, segs[k].kind, |segs[k].frags|))
              && g.offset == OffsetOf(segs, k))
  {
    hide PutHeader, Bodies, Table, PutAudio, GetAudio, PutFragments, TimeOf, LastTime, Size, FinalImage, BodySize;
    var file := FinalImage(boot, segs);
    SpurtAt(boot, segs, k);
    OffsetInside(segs, k);
    assert file[OffsetOf(segs, k)..OffsetOf(segs, k) + AUDIO_LEN] == PutAudio(HeadOf(k, segs[k].kind, |segs[k].frags|));
    GetAudioPutAudio(HeadOf(k, segs[k].kind, |segs[k].frags|));
  }

  lemma FragCountFits(segs: seq<Spurt>, k: nat)
    requires Fits(segs) && k < |segs|
    ensures |segs[k].frags| < MOD32
  {
    hide PutFragments;
    SizePrefix(segs, k + 1);
    assert segs[..k + 1][..k] == segs[..k];
    assert BodySize(segs[k]) <= Size(segs[..k + 1]);
  }

  /** Reading segment k of a finished recording returns exactly that spurt's payloads in order, if and only if every
      payload has an admissible length. */
  lemma ReadBack(boot: Header, segs: seq<Spurt>, k: nat)
    requires boot.Valid() && Fits(segs) && k < |segs| < MOD32
    requires VrfRecovery.Uniform(segs[k])
    ensures ReadSegment(FinalImage(boot, segs), k) == Playback(segs[k].frags)
  {
    hide FinalImage, ReadSegment, GetAll, FinalHeader, AllPlayable, PutFragments, PlayedAll, Size, OffsetOf, At;
    var file := FinalImage(boot, segs);
    ReadSegmentIs(boot, segs, k);
    SpurtAt(boot, segs, k);
    FragCountFits(segs, k);
    PlayRest(file, FinalHeader(boot, segs), OffsetOf(segs, k) + 64, segs[k], 0, 0);
    NothingBefore(segs[k].frags);
    NothingMore(file, FinalHeader(boot, segs), KindCode(segs[k].kind),
                OffsetOf(segs, k) + 64 + |PutFragments(segs[k].frags)|, PlayedAll(segs[k].frags));
    assert segs[k].frags[0..] == segs[k].frags;
  }

  lemma NothingMore(file: seq<byte>, header: Header, kind: u32, off: nat, front: seq<Played>)
    ensures Prepend(front, GetAll(file, header, kind, off, 0)) == Ok(front)
  {
    assert front + [] == front;
  }

  /** The table entry and the audio header lead to the first fragment. */
  lemma ReadSegmentIs(boot: Header, segs: seq<Spurt>, k: nat)
    requires boot.Valid() && Fits(segs) && k < |segs| < MOD32
    ensures (
      var file := FinalImage(boot, segs);
      ReadSegment(file, k)
      == GetAll(file, FinalHeader(boot, segs), KindCode(segs[k].kind), OffsetOf(segs, k) + 64, |segs[k].frags|))
  {
    hide FinalImage, TableEntry, AudioOf, GetAll, GetHeader, FinalHeader, PutFragments, Size, TimeOf, LastTime, Fits;
    EntryOf(boot, segs, k);
    AudioOfSpurt(boot, segs, k);
    FragCountFits(segs, k);
  }

  lemma NothingBefore(frags: seq<Frag>)
    ensures |PutFragments(frags[..0])| == 0
  {
    assert frags[..0] == [];
  }

  /** One result for each fragment, in order. */
  lemma {:induction false} PlayedAt(frags: seq<Frag>, i: nat)
    requires i < |frags|
    ensures |PlayedAll(frags)| == |frags|
    ensures PlayedAll(frags)[i] == PlayedOf(frags[i])
  {
    hide PlayedOf;
    PlayedLength(frags);
    if i > 0 {
      PlayedAt(frags[1..], i - 1);
    }
  }

  lemma {:induction false} PlayedLength(frags: seq<Frag>)
    ensures |PlayedAll(frags)| == |frags|
  {
    if frags != [] {
      PlayedLength(frags[1..]);
    }
  }
}
