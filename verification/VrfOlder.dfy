/** Recordings of the older kind, which this client reads and recovers but does not write: fragments have a header of 16
    bytes, and the codec stands in the header of the file. */
module VrfOlder {
  import opened Bytes
  import opened VrfFormat
  import opened VrfRecover
  import opened VrfReader

  datatype Older = Older(headlen: u32, pcmlen: u32, time: u32, payload: blob)

  function PutOlder(o: Older): (r: seq<byte>)
    ensures |r| == 16 + |o.payload|
  {
    PutWords([o.headlen, |o.payload|, o.pcmlen, o.time]) + o.payload
  }

  function PutOlders(os: seq<Older>): seq<byte> {
    if os == [] then [] else PutOlder(os[0]) + PutOlders(os[1..])
  }

  predicate Admissible(o: Older) {
    o.headlen != 0 && 0 < |o.payload| <= 2048
  }

  lemma HeadOfOlder(o: Older)
    ensures var head := GetFrag(PutWords([o.headlen, |o.payload|, o.pcmlen, o.time]) + Zeros(8)); (
              head.headlen == o.headlen && head.fraglen == |o.payload| && head.pcmlen == o.pcmlen
              && head.unknown1 == o.time)
  {
    hide PutWords, GetWords, Get16, Get32;
    var ws := [o.headlen, |o.payload|, o.pcmlen, o.time];
    GetWordsPutWords(ws);
    assert (PutWords(ws) + Zeros(8))[..16] == PutWords(ws);
  }

  /** Where an older fragment stands it is found with its lengths and time, and plays with the codec of the file. */
  lemma OlderPlayed(file: seq<byte>, header: Header, off: nat, o: Older)
    requires At(file, off, PutOlder(o))
    ensures GetFragment(file, 1, off).Ok?
    ensures GetFragment(file, 1, off).value.datalen == |o.payload|
    ensures GetFragment(file, 1, off).value.head.unknown1 == o.time
    ensures GetPlayed(file, header, 1, off)
         == if Admissible(o) then Ok(Read(Sound(header.codec, header.codecformat, o.payload), off + 16 + |o.payload|))
            else Err(Malformed)
  {
    hide PutWords, GetFrag;
    var bs := PutWords([o.headlen, |o.payload|, o.pcmlen, o.time]);
    AtParts(file, off, bs, o.payload);
    HeadOfOlder(o);
    assert file[off..off + 16] == bs;
  }

  predicate AllAdmissible(os: seq<Older>) {
    forall i :: 0 <= i < |os| ==> Admissible(os[i])
  }

  function Sounds(os: seq<Older>, header: Header): (r: seq<Played>)
    ensures |r| == |os|
    ensures forall i :: 0 <= i < |r| ==> r[i] == Sound(header.codec, header.codecformat, os[i].payload)
  {
    seq(|os|, i requires 0 <= i < |os| => Sound(header.codec, header.codecformat, os[i].payload))
  }

  /** A whole older segment plays its payloads in order, if all are admissible, and is refused otherwise. */
  lemma {:induction false} OldersPlayed(file: seq<byte>, header: Header, off: nat, os: seq<Older>)
    requires At(file, off, PutOlders(os))
    ensures GetAll(file, header, 1, off, |os|) == if AllAdmissible(os) then Ok(Sounds(os, header)) else Err(Malformed)
    decreases |os|
  {
    hide GetPlayed, PutOlder, At, Admissible, AllAdmissible, Sounds;
    SoundsFirst(os, header);
    if os != [] {
      AtParts(file, off, PutOlder(os[0]), PutOlders(os[1..]));
      OlderPlayed(file, header, off, os[0]);
      OldersPlayed(file, header, off + 16 + |os[0].payload|, os[1..]);
      AdmissibleFirst(os);
    }
  }

  lemma SoundsFirst(os: seq<Older>, header: Header)
    ensures os == [] ==> Sounds(os, header) == [] && AllAdmissible(os)
    ensures os != [] ==>
              Sounds(os, header)
              == [Sound(header.codec, header.codecformat, os[0].payload)] + Sounds(os[1..], header)
  {
  }

  lemma AdmissibleFirst(os: seq<Older>)
    requires os != []
    ensures AllAdmissible(os) <==> Admissible(os[0]) && AllAdmissible(os[1..])
  {
    hide Admissible;
    if Admissible(os[0]) && AllAdmissible(os[1..]) {
      forall i | 0 <= i < |os|
        ensures Admissible(os[i])
      {
        assert i > 0 ==> os[i] == os[1..][i - 1];
      }
    }
    if AllAdmissible(os) {
      forall i | 0 <= i < |os| - 1
        ensures Admissible(os[1..][i])
      {
        assert os[1..][i] == os[i + 1];
      }
    }
  }

  /** Recovery times older segments as it does those of the present kind. */
  lemma OlderTallied(g: Segment, head: FragHead)
    requires g.kind == 1
    ensures Tally(g, head) == Tally(g.(kind := 3), head).(kind := 1)
  {
  }
}
