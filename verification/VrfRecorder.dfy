/** The recorder: a queue of open segments of which only the head is streamed to the file, and a table in memory.

    The class keeps the list of spurts of VrfLog as ghost state; its invariant says which bytes of that list are in the
    file, which are still in memory, and which are in the table. */
module VrfRecorder {
  import opened Bytes
  import opened Options
  import opened VrfFormat
  import opened VrfLog
  import opened VrfImage

  /** A queue slot. `data` is what has not been written yet; the empty sequence stands for the null pointer. */
  datatype Rec = Rec(user: UserId, audio: AudioHead, segment: Segment, data: seq<byte>, stopped: bool)

  function PutRecord(user: UserId, index: u32, kind: u32, username: seq<byte>): Rec {
    var audio := AudioHead(AUDIO_HEAD, kind, 0, index, 0, 0, 0, 0);
    var name := NameField(username, NAME_LEN);
    Rec(user, audio, Segment(0, kind, 0, 0, 0, 0, 0, 0, name), PutAudio(audio) + name, false)
  }

  function AddVoice(rec: Rec, ev: Event): Rec
    requires ev.data.Some?
  {
    var payload := ev.data.value;
    var fragment := FragHead(FRAGMENT_LEN, |payload|, ev.pcmlen, ev.time, ev.codec, ev.codecformat, 0);
    rec.(data := rec.data + PutFrag(fragment) + payload,
         segment := rec.segment.(time := if rec.segment.time == 0 then ev.time else rec.segment.time,
                                 duration := ev.time),
         audio := rec.audio.(fragcount := Wrap32(rec.audio.fragcount + 1)))
  }

  function AddNote(rec: Rec, ev: Event): Rec
    requires ev.data.Some?
  {
    rec.(data := rec.data + PutWords([TEXT_HEAD, ev.time]) + Strncpy(ev.data.value, TEXT_LEN),
         segment := rec.segment.(time := ev.time, duration := ev.time),
         audio := rec.audio.(fragcount := Wrap32(rec.audio.fragcount + 1)),
         stopped := true)
  }

  function AddFragment(rec: Rec, ev: Event): Rec
    requires ev.data.Some?
  {
    if ev.kind.TextData? then AddNote(rec, ev) else AddVoice(rec, ev)
  }

  /** Slot `rec` records spurt s with index i. A spurt that has reached the file knows its offset `where`; any other
      (`where` is 0) still holds all its bytes. */
  ghost predicate Slot(rec: Rec, i: nat, s: Spurt, where: nat) {
    && rec.user == s.user
    && rec.stopped == s.stopped
    && rec.audio == HeadOf(i, s.kind, |s.frags|)
    && rec.segment.kind == KindCode(s.kind)
    && rec.segment.time == TimeOf(s.frags)
    && rec.segment.duration == LastTime(s.frags)
    && rec.segment.unknown1 == 0
    && rec.segment.unknown2 == 0
    && rec.segment.username == s.name
    && (if where != 0 then rec.segment.valid == 1 && rec.segment.offset == Wrap32(where)
        else rec.segment.valid == 0 && rec.data == Body(i, s, 0))
  }

  function Where(segs: seq<Spurt>, i: nat, written: nat): nat
    requires i <= |segs|
  {
    if i < written then OffsetOf(segs, i) else 0
  }

  ghost predicate QueueRep(queue: seq<Rec>, segs: seq<Spurt>, done: nat, written: nat) {
    && done <= written <= |segs|
    && |queue| == |segs| - done
    && forall j :: 0 <= j < |queue| ==> Slot(queue[j], done + j, segs[done + j], Where(segs, done + j, written))
  }

  /** What the head of the queue has collected since it was last written. */
  ghost function Pending(queue: seq<Rec>, done: nat, written: nat): seq<byte> {
    if written > done && queue != [] then queue[0].data else []
  }

  lemma StrncpyOfCStr(s: seq<byte>, n: nat)
    ensures Strncpy(CStr(s), n) == Strncpy(s, n)
  {
    CStrIdempotent(s);
  }

  lemma AddBytes(rec: Rec, ev: Event)
    requires ev.data.Some?
    ensures AddFragment(rec, ev).data == rec.data + PutFragment(FragOf(ev))
    ensures AddFragment(rec, ev).segment.valid == rec.segment.valid
    ensures AddFragment(rec, ev).segment.offset == rec.segment.offset
  {
    hide PutFrag, PutWords, Strncpy, CStr;
    if ev.kind.TextData? {
      StrncpyOfCStr(ev.data.value, TEXT_LEN);
    }
  }

  lemma SlotAdd(rec: Rec, i: nat, s: Spurt, where: nat, ev: Event)
    requires ev.data.Some? && Slot(rec, i, s, where) && !s.stopped
    ensures Slot(AddFragment(rec, ev), i, Extend(s, FragOf(ev)), where)
  {
    hide PutFrag, PutWords, Strncpy, CStr, PutFragment, Body, TimeOf, LastTime, Wrap32;
    var f := FragOf(ev);
    TimesSnoc(s.frags, f);
    AddBytes(rec, ev);
    WrapSucc(|s.frags|);
    BodySnoc(i, s, f, Extend(s, f), 0);
  }

  lemma SlotBegin(i: nat, ev: Event)
    requires ev.name.Some? && ev.data.Some?
    ensures var kind := if ev.kind.TextData? then TYPE_TEXT else TYPE_EXT;
            Slot(AddFragment(PutRecord(ev.user, Wrap32(i), kind, ev.name.value), ev), i, Begin(ev), 0)
  {
    hide AddFragment, PutAudio, PutFragment, NameField;
    var kind := if ev.kind.TextData? then Text else Ext;
    var rec := PutRecord(ev.user, Wrap32(i), KindCode(kind), ev.name.value);
    var bare := Spurt(ev.user, kind, NameField(ev.name.value, NAME_LEN), [], false);
    assert rec.data == Body(i, bare, 0);
    SlotAdd(rec, i, bare, 0, ev);
    assert [] + [FragOf(ev)] == [FragOf(ev)];
    assert Extend(bare, FragOf(ev)) == Begin(ev);
  }

  lemma SlotFlag(rec: Rec, i: nat, s: Spurt, where: nat, flag: bool)
    requires Slot(rec, i, s, where)
    ensures Slot(rec.(stopped := flag), i, s.(stopped := flag), where)
  {
  }

  lemma SlotFields(rec: Rec, i: nat, s: Spurt, where: nat)
    requires Slot(rec, i, s, where)
    ensures rec.user == s.user && rec.stopped == s.stopped
    ensures where == 0 ==> rec.segment.valid == 0 && rec.data == Body(i, s, 0) && rec.data != []
    ensures where != 0 ==> rec.segment.valid == 1
  {
  }

  /** A change at index i or later does not move the spurts up to i. */
  lemma WhereSame(a: seq<Spurt>, b: seq<Spurt>, i: nat, written: nat)
    requires i <= |a| && i <= |b|
    requires i < written ==> a[..i] == b[..i]
    ensures Where(a, i, written) == Where(b, i, written)
  {
  }

  /** A fragment for an open slot: the queue represents the longer spurt. */
  lemma ExtendSlot(queue: seq<Rec>, segs: seq<Spurt>, done: nat, written: nat, k: nat, ev: Event)
    requires QueueRep(queue, segs, done, written) && written <= done + 1
    requires k < |queue| && !segs[done + k].stopped && ev.data.Some?
    ensures QueueRep(queue[k := AddFragment(queue[k], ev)],
                     segs[done + k := Extend(segs[done + k], FragOf(ev))], done, written)
  {
    hide Slot, Where, AddFragment, Extend, FragOf;
    var segs' := segs[done + k := Extend(segs[done + k], FragOf(ev))];
    var queue' := queue[k := AddFragment(queue[k], ev)];
    forall j | 0 <= j < |queue'|
      ensures Slot(queue'[j], done + j, segs'[done + j], Where(segs', done + j, written))
    {
      assert Slot(queue[j], done + j, segs[done + j], Where(segs, done + j, written));
      if done + j < written {
        assert segs'[..done + j] == segs[..done + j];
      }
      WhereSame(segs, segs', done + j, written);
      if j == k {
        SlotAdd(queue[k], done + k, segs[done + k], Where(segs, done + k, written), ev);
      }
    }
  }

  /** What the head has pending grows by the fragment exactly when the spurt is already on disk. */
  lemma ExtendFile(file: seq<byte>, prefix: seq<byte>, queue: seq<Rec>, segs: seq<Spurt>, done: nat,
                   written: nat, k: nat, ev: Event)
    requires QueueRep(queue, segs, done, written) && written <= done + 1
    requires k < |queue| && ev.data.Some?
    requires file + Pending(queue, done, written) == prefix + Bodies(segs[..written], done)
    ensures var queue' := queue[k := AddFragment(queue[k], ev)];
            var segs' := segs[done + k := Extend(segs[done + k], FragOf(ev))]; (
              && segs'[..done] == segs[..done]
              && file + Pending(queue', done, written) == prefix + Bodies(segs'[..written], done))
  {
    hide Slot, Where, AddFragment, FragOf, PutFragment, Bodies;
    var i := done + k;
    var f := FragOf(ev);
    var s := Extend(segs[i], f);
    AddBytes(queue[k], ev);
    if i < written {
      assert segs[i := s][..written] == segs[..written][i := s];
      BodiesExtendLast(segs[..written], s, f, done);
      assert file + (queue[0].data + PutFragment(f)) == (file + queue[0].data) + PutFragment(f);
      assert prefix + (Bodies(segs[..written], done) + PutFragment(f))
          == (prefix + Bodies(segs[..written], done)) + PutFragment(f);
    } else {
      assert segs[i := s][..written] == segs[..written];
    }
  }

  /** A new slot at the end of the queue. */
  lemma BeginSlot(queue: seq<Rec>, segs: seq<Spurt>, done: nat, written: nat, rec: Rec, s: Spurt)
    requires QueueRep(queue, segs, done, written)
    requires Slot(rec, |segs|, s, 0)
    ensures QueueRep(queue + [rec], segs + [s], done, written)
    ensures (segs + [s])[..done] == segs[..done]
    ensures (segs + [s])[..written] == segs[..written]
    ensures Pending(queue + [rec], done, written) == Pending(queue, done, written)
  {
    hide Slot, Where;
    var segs' := segs + [s];
    var queue' := queue + [rec];
    forall j | 0 <= j < |queue'|
      ensures Slot(queue'[j], done + j, segs'[done + j], Where(segs', done + j, written))
    {
      if j < |queue| {
        assert Slot(queue[j], done + j, segs[done + j], Where(segs, done + j, written));
        assert segs'[..done + j] == segs[..done + j];
        WhereSame(segs, segs', done + j, written);
      } else {
        WhereUnwritten(segs', |segs|, written);
      }
    }
  }

  lemma WhereUnwritten(segs: seq<Spurt>, i: nat, written: nat)
    requires written <= i <= |segs|
    ensures Where(segs, i, written) == 0
  {
  }

  lemma WrapSucc(n: nat)
    ensures Wrap32(Wrap32(n) + 1) == Wrap32(n + 1)
    ensures Wrap32(Wrap32(n + 1) - 1) == Wrap32(n)
  {
  }

  lemma SlotCount(queue: seq<Rec>, segs: seq<Spurt>, done: nat, written: nat)
    requires QueueRep(queue, segs, done, written)
    ensures |queue| == |segs| - done && done <= written <= |segs|
  {
  }

  /** A slot without data is on disk. */
  lemma EmptyIsWritten(queue: seq<Rec>, segs: seq<Spurt>, done: nat, written: nat, k: nat)
    requires QueueRep(queue, segs, done, written) && k < |queue|
    ensures queue[k].data == [] ==> done + k < written
  {
    hide Slot, Where;
    SlotFields(queue[k], done + k, segs[done + k], Where(segs, done + k, written));
    if written <= done + k {
      WhereUnwritten(segs, done + k, written);
    }
  }

  /** User and stopped flag of a slot are those of its spurt. */
  lemma SlotFlags(queue: seq<Rec>, segs: seq<Spurt>, done: nat, written: nat)
    requires QueueRep(queue, segs, done, written)
    ensures forall j :: 0 <= j < |queue| ==> queue[j].stopped == segs[done + j].stopped
    ensures forall j :: 0 <= j < |queue| ==> queue[j].user == segs[done + j].user
  {
    hide Slot, Where;
    forall j | 0 <= j < |queue|
      ensures queue[j].stopped == segs[done + j].stopped && queue[j].user == segs[done + j].user
    {
      SlotFields(queue[j], done + j, segs[done + j], Where(segs, done + j, written));
    }
  }

  /** Setting stopped flags changes no bytes. */
  lemma StopSlots(queue: seq<Rec>, segs: seq<Spurt>, done: nat, written: nat, queue': seq<Rec>, segs': seq<Spurt>)
    requires QueueRep(queue, segs, done, written)
    requires |queue'| == |queue| && |segs'| == |segs|
    requires forall i :: 0 <= i < |segs| ==> segs'[i] == segs[i].(stopped := segs'[i].stopped)
    requires forall j :: 0 <= j < |queue| ==> queue'[j] == queue[j].(stopped := segs'[done + j].stopped)
    ensures QueueRep(queue', segs', done, written)
    ensures Bodies(segs'[..written], done) == Bodies(segs[..written], done)
    ensures Table(segs'[..done]) == Table(segs[..done])
    ensures Pending(queue', done, written) == Pending(queue, done, written)
  {
    hide Slot, Body, Bodies, Table, Size;
    SameContentsSameBytes(segs'[..written], segs[..written], done);
    SameContentsSameBytes(segs'[..done], segs[..done], done);
    forall j | 0 <= j < |queue'|
      ensures Slot(queue'[j], done + j, segs'[done + j], Where(segs', done + j, written))
    {
      assert Slot(queue[j], done + j, segs[done + j], Where(segs, done + j, written));
      SameContentsSameBytes(segs'[..done + j], segs[..done + j], done);
      SlotFlag(queue[j], done + j, segs[done + j], Where(segs, done + j, written), segs'[done + j].stopped);
    }
  }

  /** Spurts that are on disk have nothing left in memory. */
  ghost predicate Drained(queue: seq<Rec>, done: nat, written: nat) {
    forall j :: 0 <= j < |queue| && done + j < written ==> queue[j].data == []
  }

  /** Writing what the head collected since its last write. */
  lemma FlushHead(file: seq<byte>, prefix: seq<byte>, queue: seq<Rec>, segs: seq<Spurt>, done: nat, written: nat)
    requires QueueRep(queue, segs, done, written) && written == done + 1 && queue != []
    requires file + Pending(queue, done, written) == prefix + Bodies(segs[..written], done)
    ensures QueueRep(queue[0 := queue[0].(data := [])], segs, done, written)
    ensures file + queue[0].data == prefix + Bodies(segs[..written], done)
    ensures queue[0].segment.valid == 1
  {
    hide Bodies, Slot, Where;
    var queue' := queue[0 := queue[0].(data := [])];
    forall j | 0 <= j < |queue'|
      ensures Slot(queue'[j], done + j, segs[done + j], Where(segs, done + j, written))
    {
      assert Slot(queue[j], done + j, segs[done + j], Where(segs, done + j, written));
      if j == 0 {
        SlotOnDisk(queue[0], segs, done, written);
      }
    }
    assert Slot(queue[0], done + 0, segs[done + 0], Where(segs, done + 0, written));
    SlotOnDisk(queue[0], segs, done, written);
  }

  /** What a slot holds in memory is free once its spurt is on disk. */
  lemma SlotOnDisk(rec: Rec, segs: seq<Spurt>, i: nat, written: nat)
    requires i < written <= |segs| && Slot(rec, i, segs[i], Where(segs, i, written))
    ensures Slot(rec.(data := []), i, segs[i], Where(segs, i, written))
    ensures rec.segment.valid == 1
  {
    OffsetPositive(segs, i);
  }

  lemma OffsetPositive(segs: seq<Spurt>, i: nat)
    requires i <= |segs|
    ensures OffsetOf(segs, i) > 0
  {
  }

  function Landed(rec: Rec, file: seq<byte>): Rec {
    rec.(data := [], segment := rec.segment.(valid := 1, offset := Wrap32(|file|)))
  }

  lemma LandedEmpty(rec: Rec, file: seq<byte>)
    ensures Landed(rec, file).data == []
  {
  }

  /** Writing the first spurt that was not on disk yet. */
  lemma FlushNext(file: seq<byte>, prefix: seq<byte>, queue: seq<Rec>, segs: seq<Spurt>, done: nat,
                  written: nat, k: nat)
    requires QueueRep(queue, segs, done, written) && k < |queue| && written == done + k
    requires file == prefix + Bodies(segs[..written], done) && |prefix| == HEADER_LEN
    ensures QueueRep(queue[k := Landed(queue[k], file)], segs, done, written + 1)
    ensures file + queue[k].data == prefix + Bodies(segs[..written + 1], done)
    ensures queue[k].segment.valid == 0 && queue[k].data != []
  {
    hide Slot, Where, Landed, Body, Bodies, Size;
    assert Slot(queue[k], done + k, segs[done + k], Where(segs, done + k, written));
    WhereUnwritten(segs, written, written);
    SlotFields(queue[k], written, segs[written], 0);
    BodiesSnoc(prefix, segs, written, done);
    LandQueue(queue, segs, done, written, k, file);
  }

  lemma BodiesSnoc(prefix: seq<byte>, segs: seq<Spurt>, i: nat, done: nat)
    requires done <= i < |segs|
    ensures prefix + Bodies(segs[..i], done) + Body(i, segs[i], 0) == prefix + Bodies(segs[..i + 1], done)
  {
    hide Body;
    assert segs[..i + 1][..i] == segs[..i];
    assert prefix + (Bodies(segs[..i], done) + Body(i, segs[i], 0))
        == prefix + Bodies(segs[..i], done) + Body(i, segs[i], 0);
  }

  lemma LandQueue(queue: seq<Rec>, segs: seq<Spurt>, done: nat, written: nat, k: nat, file: seq<byte>)
    requires QueueRep(queue, segs, done, written) && k < |queue| && written == done + k
    requires |file| == OffsetOf(segs, written)
    ensures QueueRep(queue[k := Landed(queue[k], file)], segs, done, written + 1)
  {
    hide Slot, Where, Landed;
    var queue' := queue[k := Landed(queue[k], file)];
    forall j | 0 <= j < |queue'|
      ensures Slot(queue'[j], done + j, segs[done + j], Where(segs, done + j, written + 1))
    {
      assert Slot(queue[j], done + j, segs[done + j], Where(segs, done + j, written));
      if j == k {
        WhereUnwritten(segs, written, written);
        SlotLanded(queue[k], segs, written, file);
      } else {
        WhereElse(segs, done + j, written);
      }
    }
  }

  lemma WhereElse(segs: seq<Spurt>, i: nat, written: nat)
    requires i <= |segs| && i != written
    ensures Where(segs, i, written + 1) == Where(segs, i, written)
  {
  }

  lemma SlotLanded(rec: Rec, segs: seq<Spurt>, i: nat, file: seq<byte>)
    requires i < |segs| && Slot(rec, i, segs[i], 0) && |file| == OffsetOf(segs, i)
    ensures Slot(Landed(rec, file), i, segs[i], Where(segs, i, i + 1))
  {
    hide Body, TimeOf, LastTime;
  }

  function Closed(rec: Rec): Segment {
    rec.segment.(headlen := SEGMENT_LEN, duration := Wrap32(rec.segment.duration - rec.segment.time))
  }

  /** Popping a stopped head that is on disk: its table entry and its patched audio record. */
  lemma PopHead(file: seq<byte>, prefix: seq<byte>, queue: seq<Rec>, segs: seq<Spurt>, done: nat, written: nat)
    requires QueueRep(queue, segs, done, written) && queue != [] && done < written && Fits(segs)
    requires file == prefix + Bodies(segs[..written], done) && |prefix| == HEADER_LEN
    ensures WriteAt(file, Closed(queue[0]).offset, PutAudio(queue[0].audio))
        == prefix + Bodies(segs[..written], done + 1)
    ensures Table(segs[..done]) + PutSegment(Closed(queue[0])) == Table(segs[..done + 1])
  {
    hide Slot, Where, Closed, PutAudio, PutSegment, Bodies, WriteAt, Size, Fits;
    assert Slot(queue[0], done + 0, segs[done + 0], Where(segs, done + 0, written));
    assert segs[..written][..done] == segs[..done];
    ClosedEntry(queue[0], segs, done, written);
    PatchNext(prefix, segs[..written], done);
    assert segs[..done + 1][..done] == segs[..done];
  }

  lemma PopQueue(queue: seq<Rec>, segs: seq<Spurt>, done: nat, written: nat)
    requires QueueRep(queue, segs, done, written) && queue != [] && done < written
    ensures QueueRep(queue[1..], segs, done + 1, written)
  {
    hide Slot, Where;
    forall j | 0 <= j < |queue[1..]|
      ensures Slot(queue[1..][j], done + 1 + j, segs[done + 1 + j], Where(segs, done + 1 + j, written))
    {
      assert Slot(queue[j + 1], done + (j + 1), segs[done + (j + 1)], Where(segs, done + (j + 1), written));
    }
  }

  lemma ClosedEntry(rec: Rec, segs: seq<Spurt>, i: nat, written: nat)
    requires i < written <= |segs| && Slot(rec, i, segs[i], Where(segs, i, written)) && Fits(segs)
    ensures Closed(rec) == Entry(segs[i].kind, segs[i].name, segs[i].frags, OffsetOf(segs, i))
    ensures Closed(rec).offset == OffsetOf(segs, i)
    ensures rec.audio == HeadOf(i, segs[i].kind, |segs[i].frags|)
  {
    hide Body, TimeOf, LastTime, BodySize;
    SizePrefix(segs, i);
    OffsetPositive(segs, i);
  }

  lemma DrainedFile(file: seq<byte>, queue: seq<Rec>, done: nat, written: nat)
    requires Drained(queue, done, written)
    ensures file + Pending(queue, done, written) == file
  {
  }

  /** Before the first write of an event the head may have data, but then it is on disk already. */
  lemma DrainedAtSeam(file: seq<byte>, queue: seq<Rec>, done: nat, written: nat, k: nat)
    requires written == done + k && (k == 0 || Drained(queue, done, written))
    ensures file + Pending(queue, done, written) == file
  {
  }

  lemma DrainedWritten(queue: seq<Rec>, done: nat, written: nat, k: nat, rec: Rec)
    requires k < |queue| && written == done + k + 1 && rec.data == []
    requires k > 0 ==> Drained(queue, done, written - 1)
    ensures Drained(queue[k := rec], done, written)
  {
  }

  lemma DrainedTail(queue: seq<Rec>, done: nat, written: nat)
    requires Drained(queue, done, written) && queue != []
    ensures Drained(queue[1..], done + 1, written)
  {
    forall j | 0 <= j < |queue[1..]| && done + 1 + j < written
      ensures queue[1..][j].data == []
    {
      assert queue[j + 1].data == [];
    }
  }

  lemma StoppedIsLeading(segs: seq<Spurt>, d: nat)
    requires d < |segs| && segs[d].stopped
    requires forall i :: 0 <= i < d ==> segs[i].stopped
    ensures d < LeadingStopped(segs)
  {
    hide LeadingStopped;
    var n := LeadingStopped(segs);
  }

  lemma StopAllFits(segs: seq<Spurt>)
    requires Fits(segs)
    ensures Fits(StopAll(segs))
  {
    SameContentsSameBytes(StopAll(segs), segs, 0);
  }

  lemma FinalIgnoresFlags(boot: Header, a: seq<Spurt>, b: seq<Spurt>)
    requires boot.Valid() && SameContents(a, b)
    ensures FinalImage(boot, a) == FinalImage(boot, b)
  {
    hide Bodies, Table, PutHeader;
    SameContentsSameBytes(a, b, |a|);
  }

  /** What the fields of the recorder say about the list of spurts: the queue, the file with the head's pending bytes,
      the table of the finished spurts, and the header in memory. */
  ghost predicate Represents(file: seq<byte>, header: Header, table: seq<byte>, queue: seq<Rec>, boot: Header,
                             segs: seq<Spurt>, done: nat, written: nat) {
    && boot.Valid()
    && QueueRep(queue, segs, done, written)
    && file + Pending(queue, done, written) == PutHeader(boot) + Bodies(segs[..written], done)
    && table == Table(segs[..done])
    && header == boot.(segcount := Wrap32(|segs|))
  }

  lemma StateQueue(file: seq<byte>, header: Header, table: seq<byte>, queue: seq<Rec>, boot: Header,
                   segs: seq<Spurt>, done: nat, written: nat)
    requires Represents(file, header, table, queue, boot, segs, done, written)
    ensures QueueRep(queue, segs, done, written)
  {
    hide QueueRep;
  }

  lemma ExtendState(file: seq<byte>, header: Header, table: seq<byte>, queue: seq<Rec>, boot: Header,
                    segs: seq<Spurt>, done: nat, written: nat, k: nat, ev: Event)
    requires Represents(file, header, table, queue, boot, segs, done, written) && written <= done + 1
    requires k < |queue| && done + k < |segs| && !segs[done + k].stopped && ev.data.Some?
    ensures Represents(file, header, table, queue[k := AddFragment(queue[k], ev)], boot,
                       segs[done + k := Extend(segs[done + k], FragOf(ev))], done, written)
  {
    hide QueueRep, Pending, PutHeader, Bodies, Table, AddFragment, Extend, FragOf;
    SlotCount(queue, segs, done, written);
    ExtendSlot(queue, segs, done, written, k, ev);
    ExtendFile(file, PutHeader(boot), queue, segs, done, written, k, ev);
  }

  lemma BeginState(file: seq<byte>, header: Header, table: seq<byte>, queue: seq<Rec>, boot: Header,
                   segs: seq<Spurt>, done: nat, written: nat, rec: Rec, s: Spurt)
    requires Represents(file, header, table, queue, boot, segs, done, written)
    requires Slot(rec, |segs|, s, 0)
    ensures header.segcount == Wrap32(|segs|)
    ensures Represents(file, header.(segcount := Wrap32(header.segcount + 1)), table, queue + [rec], boot, segs + [s],
                       done, written)
  {
    hide QueueRep, Slot, Pending, PutHeader, Bodies, Table;
    SlotCount(queue, segs, done, written);
    BeginSlot(queue, segs, done, written, rec, s);
    WrapSucc(|segs|);
  }

  lemma StopState(file: seq<byte>, header: Header, table: seq<byte>, queue: seq<Rec>, boot: Header,
                  segs: seq<Spurt>, done: nat, written: nat, queue': seq<Rec>, segs': seq<Spurt>)
    requires Represents(file, header, table, queue, boot, segs, done, written)
    requires |queue'| == |queue| && |segs'| == |segs| == done + |queue|
    requires forall i :: 0 <= i < |segs| ==> segs'[i] == segs[i].(stopped := segs'[i].stopped)
    requires forall j :: 0 <= j < |queue| ==> queue'[j] == queue[j].(stopped := segs'[done + j].stopped)
    ensures Represents(file, header, table, queue', boot, segs', done, written)
  {
    hide QueueRep, Pending, PutHeader, Bodies, Table;
    SlotCount(queue, segs, done, written);
    StopSlots(queue, segs, done, written, queue', segs');
  }

  lemma WriteNextState(file: seq<byte>, header: Header, table: seq<byte>, queue: seq<Rec>, boot: Header,
                       segs: seq<Spurt>, done: nat, written: nat, k: nat)
    requires Represents(file, header, table, queue, boot, segs, done, written)
    requires k < |queue| && written == done + k && (k > 0 ==> Drained(queue, done, written))
    ensures queue[k].segment.valid == 0
    ensures Represents(file + queue[k].data, header, table, queue[k := Landed(queue[k], file)], boot, segs, done,
                       done + k + 1)
    ensures Drained(queue[k := Landed(queue[k], file)], done, done + k + 1)
  {
    hide QueueRep, PutHeader, Bodies, Table, Drained, Pending, Landed, Slot, Size, Wrap32;
    SlotCount(queue, segs, done, written);
    DrainedAtSeam(file, queue, done, written, k);
    FlushNext(file, PutHeader(boot), queue, segs, done, written, k);
    LandedEmpty(queue[k], file);
    var queue' := queue[k := Landed(queue[k], file)];
    DrainedWritten(queue, done, done + k + 1, k, Landed(queue[k], file));
    DrainedFile(file + queue[k].data, queue', done, done + k + 1);
    assert file + queue[k].data + Pending(queue', done, done + k + 1)
        == PutHeader(boot) + Bodies(segs[..done + k + 1], done);
  }

  lemma WriteHeadState(file: seq<byte>, header: Header, table: seq<byte>, queue: seq<Rec>, boot: Header,
                       segs: seq<Spurt>, done: nat, written: nat)
    requires Represents(file, header, table, queue, boot, segs, done, written)
    requires queue != [] && written == done + 1
    ensures queue[0].segment.valid == 1
    ensures Represents(file + queue[0].data, header, table, queue[0 := queue[0].(data := [])], boot, segs, done,
        written)
    ensures Drained(queue[0 := queue[0].(data := [])], done, written)
  {
    hide QueueRep, PutHeader, Bodies, Table, Drained, Pending, Slot;
    SlotCount(queue, segs, done, written);
    FlushHead(file, PutHeader(boot), queue, segs, done, written);
    DrainedWritten(queue, done, written, 0, queue[0].(data := []));
    DrainedFile(file + queue[0].data, queue[0 := queue[0].(data := [])], done, written);
  }

  lemma PopState(file: seq<byte>, header: Header, table: seq<byte>, queue: seq<Rec>, boot: Header,
                 segs: seq<Spurt>, done: nat, written: nat)
    requires Represents(file, header, table, queue, boot, segs, done, written) && Drained(queue, done, written)
    requires queue != [] && done < written && Fits(segs)
    ensures Represents(WriteAt(file, Closed(queue[0]).offset, PutAudio(queue[0].audio)), header,
                       table + PutSegment(Closed(queue[0])), queue[1..], boot, segs, done + 1, written)
    ensures Drained(queue[1..], done + 1, written)
  {
    hide QueueRep, Pending, PutHeader, Bodies, Table, Drained, WriteAt, PutAudio, PutSegment, Closed, Fits;
    SlotCount(queue, segs, done, written);
    DrainedFile(file, queue, done, written);
    PopHead(file, PutHeader(boot), queue, segs, done, written);
    PopQueue(queue, segs, done, written);
    DrainedTail(queue, done, written);
    DrainedFile(WriteAt(file, Closed(queue[0]).offset, PutAudio(queue[0].audio)), queue[1..], done + 1, written);
  }

  class Recorder {
    var file: seq<byte>
    var header: Header
    var table: seq<byte>
    var queue: seq<Rec>

    ghost var boot: Header
    ghost var segs: seq<Spurt>
    ghost var done: nat
    ghost var written: nat

    ghost predicate Rep()
      reads this
    {
      Represents(file, header, table, queue, boot, segs, done, written)
    }

    ghost function TheLog(): Log
      reads this
    {
      Log(segs, written)
    }

    /** Between events: everything written belongs to the finished spurts and the head of the queue. */
    ghost predicate Valid()
      reads this
    {
      && Rep()
      && TheLog().Valid()
      && done == LeadingStopped(segs)
      && file == CrashImage(boot, TheLog())
    }

    /** `v3_vrf_record_start`: the file holds the temporary header only. */
    constructor (boot: Header)
      requires boot.Valid() && boot.headid == TEMP_ID && boot.segcount == 0
      ensures Valid() && TheLog() == EMPTY_LOG && this.boot == boot
    {
      this.file := PutHeader(boot);
      this.header := boot;
      this.table := [];
      this.queue := [];
      this.boot := boot;
      this.segs := [];
      this.done := 0;
      this.written := 0;
    }

    /** The queue search shared by data and stop events. */
    method Search(user: UserId) returns (k: nat)
      requires Rep()
      requires done <= |segs| && forall i :: 0 <= i < done ==> segs[i].stopped
      ensures k <= |queue|
      ensures FindOpen(segs, user) == if k < |queue| then done + k else |segs|
    {
      hide Represents, FindOpen;
      Counts();
      k := 0;
      while k < |queue|
        invariant 0 <= k <= |queue|
        invariant forall i :: 0 <= i < done + k ==> !IsOpenFor(segs[i], user)
      {
        if queue[k].user == user && !queue[k].stopped {
          FindOpenUnique(segs, user, done + k);
          return;
        }
        k := k + 1;
      }
    }

    /** A voice or text event: the fragment joins the user's open slot or begins a new slot at the end. */
    method CollectData(ev: Event)
      requires Rep() && written <= done + 1
      requires done <= |segs| && forall i :: 0 <= i < done ==> segs[i].stopped
      requires (ev.Effective().AudioData? || ev.Effective().TextData?) && ev.data.Some?
      modifies this
      ensures Rep()
      ensures segs == Apply(old(segs), ev)
      ensures unchanged(`file, `table, `boot, `done, `written)
    {
      hide Represents, Slot, AddFragment, PutRecord, FragOf, FindOpen, Extend, Begin;
      Counts();
      var k := Search(ev.user);
      if k < |queue| {
        ExtendState(file, header, table, queue, boot, segs, done, written, k, ev);
        queue := queue[k := AddFragment(queue[k], ev)];
        segs := segs[done + k := Extend(segs[done + k], FragOf(ev))];
      } else {
        var kind := if ev.kind.TextData? then TYPE_TEXT else TYPE_EXT;
        SlotBegin(|segs|, ev);
        BeginState(file, header, table, queue, boot, segs, done, written,
                   AddFragment(PutRecord(ev.user, Wrap32(|segs|), kind, ev.name.value), ev), Begin(ev));
        WrapSucc(|segs|);
        header := header.(segcount := Wrap32(header.segcount + 1));
        var rec := AddFragment(PutRecord(ev.user, Wrap32(header.segcount - 1), kind, ev.name.value), ev);
        queue := queue + [rec];
        segs := segs + [Begin(ev)];
      }
    }

    method CollectStop(user: UserId)
      requires Rep() && written <= done + 1
      requires done <= |segs| && forall i :: 0 <= i < done ==> segs[i].stopped
      modifies this
      ensures Rep()
      ensures var i := FindOpen(old(segs), user);
              segs == if i < |old(segs)| then old(segs)[i := old(segs)[i].(stopped := true)] else old(segs)
      ensures unchanged(`file, `table, `boot, `done, `written)
    {
      hide Represents, FindOpen;
      Counts();
      var k := Search(user);
      if k < |queue| {
        ghost var segs' := segs[done + k := segs[done + k].(stopped := true)];
        StopState(file, header, table, queue, boot, segs, done, written, queue[k := queue[k].(stopped := true)], segs');
        queue := queue[k := queue[k].(stopped := true)];
        segs := segs';
      }
    }

    method CollectFlush()
      requires Rep() && written <= done + 1
      modifies this
      ensures Rep()
      ensures segs == StopAll(old(segs))
      ensures unchanged(`file, `table, `boot, `done, `written)
    {
      hide Represents;
      Counts();
      var k := 0;
      ghost var was := queue;
      while k < |queue|
        invariant 0 <= k <= |queue| == |was|
        invariant forall j :: 0 <= j < k ==> queue[j] == was[j].(stopped := true)
        invariant forall j :: k <= j < |queue| ==> queue[j] == was[j]
        invariant unchanged(`file, `table, `boot, `done, `written, `segs, `header)
      {
        queue := queue[k := queue[k].(stopped := true)];
        k := k + 1;
      }
      StopState(file, header, table, was, boot, segs, done, written, queue, StopAll(segs));
      segs := StopAll(segs);
    }

    /** The first half of an event: find or open the user's slot and collect the fragment, or set stopped flags. */
    method Collect(ev: Event)
      requires Rep() && written <= done + 1
      requires done <= |segs| && forall i :: 0 <= i < done ==> segs[i].stopped
      modifies this
      ensures Rep()
      ensures segs == Apply(old(segs), ev)
      ensures unchanged(`file, `table, `boot, `done, `written)
    {
      hide Rep, FindOpen;
      match ev.Effective()
      case AudioData | TextData =>
        if ev.data.Some? {
          CollectData(ev);
        }
      case AudioStop =>
        CollectStop(ev.user);
      case Flush =>
        CollectFlush();
    }

    /** One write of the loop below. */
    method WriteSlot(k: nat)
      requires Rep() && k < |queue| && queue[k].data != []
      requires if k == 0 then written <= done + 1 else written == done + k && Drained(queue, done, written)
      modifies this
      ensures Rep() && Drained(queue, done, written) && written == done + k + 1
      ensures |queue| == |old(queue)|
      ensures unchanged(`table, `header, `boot, `segs, `done)
    {
      hide Represents, Drained;
      Counts();
      if written == done + k {
        WriteNextState(file, header, table, queue, boot, segs, done, written, k);
      } else {
        WriteHeadState(file, header, table, queue, boot, segs, done, written);
      }
      var rec := queue[k];
      if rec.segment.valid == 0 {
        rec := rec.(segment := rec.segment.(valid := 1, offset := Wrap32(|file|)));
      }
      file := file + rec.data;
      queue := queue[k := rec.(data := [])];
      written := done + k + 1;
    }

    /** The write loop: the head, stopped or not, and the stopped slots that follow it without a gap. */
    method WriteOut()
      requires Rep() && written <= done + 1
      requires done <= |segs| && forall i :: 0 <= i < done ==> segs[i].stopped
      modifies this
      ensures Rep() && Drained(queue, done, written)
      ensures written == if LeadingStopped(segs) == done < |segs| then done + 1 else LeadingStopped(segs)
      ensures unchanged(`table, `header, `boot, `segs, `done)
    {
      hide Rep, LeadingStopped;
      Counts();
      var k := 0;
      while k < |queue|
        invariant 0 <= k <= |queue| == |segs| - done
        invariant Rep()
        invariant done <= written <= |segs|
        invariant k == 0 ==> written <= done + 1
        invariant k > 0 ==> written == done + k && Drained(queue, done, written)
        invariant forall i :: 0 <= i < done + k ==> segs[i].stopped
        invariant unchanged(`table, `header, `boot, `segs, `done)
      {
        Flags(k);
        if queue[k].data != [] && (k == 0 || queue[k].stopped) {
          WriteSlot(k);
          Counts();
          Flags(k);
        }
        if !queue[k].stopped {
          LeadingStoppedUnique(segs, done + k);
          return;
        }
        k := k + 1;
      }
      LeadingStoppedUnique(segs, |segs|);
    }

    lemma Counts()
      requires Rep()
      ensures |queue| == |segs| - done && done <= written <= |segs|
      ensures forall j :: 0 <= j < |queue| ==> queue[j].stopped == segs[done + j].stopped
      ensures forall j :: 0 <= j < |queue| ==> queue[j].user == segs[done + j].user
    {
      hide Represents, QueueRep;
      StateQueue(file, header, table, queue, boot, segs, done, written);
      SlotCount(queue, segs, done, written);
      SlotFlags(queue, segs, done, written);
    }

    /** A slot without data is on disk. */
    lemma Flags(k: nat)
      requires Rep() && k < |queue|
      ensures done + k < |segs| && queue[k].stopped == segs[done + k].stopped
      ensures queue[k].data == [] ==> done + k < written
    {
      hide Represents;
      Counts();
      StateQueue(file, header, table, queue, boot, segs, done, written);
      EmptyIsWritten(queue, segs, done, written, k);
    }

    /** The pop loop: a stopped head goes to the table and its audio record gets its fragment count. */
    method PopStopped()
      requires Rep() && Drained(queue, done, written) && LeadingStopped(segs) <= written
      requires done <= |segs| && forall i :: 0 <= i < done ==> segs[i].stopped
      requires Fits(segs)
      modifies this
      ensures Rep() && Drained(queue, done, written)
      ensures done == LeadingStopped(segs)
      ensures unchanged(`header, `boot, `segs, `written)
    {
      hide Rep, LeadingStopped, Fits, Drained;
      Counts();
      while queue != [] && queue[0].stopped
        invariant Rep() && Drained(queue, done, written)
        invariant |queue| == |segs| - done
        invariant forall i :: 0 <= i < done ==> segs[i].stopped
        invariant unchanged(`header, `boot, `segs, `written)
        decreases |queue|
      {
        Flags(0);
        StoppedIsLeading(segs, done);
        PopOne();
      }
      if queue != [] {
        Flags(0);
      }
      LeadingStoppedUnique(segs, done);
    }

    method PopOne()
      requires Rep() && Drained(queue, done, written) && queue != [] && done < written && Fits(segs)
      modifies this
      ensures Rep() && Drained(queue, done, written)
      ensures done == old(done) + 1 && |queue| == |old(queue)| - 1
      ensures unchanged(`header, `boot, `segs, `written)
    {
      hide Represents, WriteAt, PutAudio, PutSegment, Fits, Drained;
      PopState(file, header, table, queue, boot, segs, done, written);
      var segment := queue[0].segment.(headlen := SEGMENT_LEN,
                                       duration := Wrap32(queue[0].segment.duration - queue[0].segment.time));
      table := table + PutSegment(segment);
      file := WriteAt(file, segment.offset, PutAudio(queue[0].audio));
      queue := queue[1..];
      done := done + 1;
    }

    /** `_v3_vrf_record_event`: one event on the queue, the table and the file is one step of the list of spurts. */
    method RecordEvent(ev: Event)
      requires Valid() && Fits(Apply(segs, ev))
      modifies this
      ensures Valid() && boot == old(boot)
      ensures TheLog() == Step(old(TheLog()), ev)
    {
      hide Rep, Fits, Apply, LeadingStopped, Drained, CrashImage;
      ghost var before := TheLog();
      Collect(ev);
      assert segs == Apply(before.segs, ev);
      ApplyGrows(before.segs, ev);
      WriteOut();
      PopStopped();
      StepValid(before, ev);
      AtRest();
    }

    /** With nothing pending the file is the crash image. */
    lemma AtRest()
      requires Rep() && Drained(queue, done, written) && done == LeadingStopped(segs) && written <= |segs|
      ensures file == CrashImage(boot, TheLog())
    {
      hide QueueRep, Bodies, PutHeader, LeadingStopped;
      DrainedFile(file, queue, done, written);
    }

    /** `v3_vrf_record_stop`: a flush, then the table and the final header. */
    method Stop(user: UserId, name: Option<seq<byte>>, time: u32)
      requires Valid() && Fits(segs)
      modifies this
      ensures file == FinalImage(old(boot), old(segs))
    {
      hide Rep, Fits, CrashImage;
      ghost var was := segs;
      var flush := Event(VrfLog.Flush, user, name, 0xffff, 0xffff, 0, None, time);
      StopAllFits(segs);
      RecordEvent(flush);
      assert segs == StopAll(was);
      LeadingStoppedUnique(segs, |segs|);
      FinishRecorder(was);
      file := FinishFile(file, header, table);
      table := [];
    }

    lemma FinishRecorder(was: seq<Spurt>)
      requires Valid() && segs == StopAll(was) && Fits(was) && done == written == |segs|
      ensures header.Valid()
      ensures FinishFile(file, header, table) == FinalImage(boot, was)
    {
      hide QueueRep, Bodies, Table, PutHeader, FinishFile, Fits;
      StopAllFits(was);
      assert segs[..|segs|] == segs;
      FinishIsFinal(boot, PutHeader(boot), header, segs);
      FinalIgnoresFlags(boot, segs, was);
    }
  }
}
