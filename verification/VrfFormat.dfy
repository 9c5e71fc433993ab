/** The packed records of a VRF recording and their big-endian encodings. */
module VrfFormat {
  import opened Bytes

  const HEADER_LEN: nat := 10552
  const INFO_LEN: nat := 10496    // platform, version, user name, comment, url, copyright
  const AUDIO_LEN: nat := 32
  const NAME_LEN: nat := 32
  const SEGMENT_LEN: nat := 64
  const FRAGMENT_LEN: nat := 24
  const AUDIO_HEAD: u32 := 64      // audio record followed by its user name
  const TEXT_LEN: nat := 0x100
  const TEXT_HEAD: u32 := 264      // eight bytes of fragment header and the text
  const MAX_FRAGLEN: int := 2048

  const TYPE_AUDIO: u32 := 1
  const TYPE_TEXT: u32 := 2
  const TYPE_EXT: u32 := 3

  const HEAD_ID: seq<byte> := [86, 69, 78, 84, 82, 69, 67, 68]   // "VENTRECD"
  const TEMP_ID: seq<byte> := [84, 69, 77, 80, 82, 69, 67, 68]   // "TEMPRECD"

  type Name = s: seq<byte> | |s| == NAME_LEN witness Zeros(NAME_LEN)

  datatype Header = Header(
    headid: seq<byte>,
    size: u32,
    headlen: u32,
    unknown1: u32,
    segtable: u32,
    segcount: u32,
    vrfversion: u32,
    unknown2: u32,
    unknown3: u32,
    infolen: u32,
    codec: u32,
    codecformat: u32,
    unknown4: u32,
    info: seq<byte>)
  {
    predicate Valid() {
      |headid| == 8 && |info| == INFO_LEN
    }

    function Words(): seq<u32> {
      [size, headlen, unknown1, segtable, segcount, vrfversion, unknown2, unknown3, infolen, codec, codecformat,
       unknown4]
    }
  }

  /** What `_v3_vrf_put_header` writes at offset 0. */
  function PutHeader(h: Header): (r: seq<byte>)
    requires h.Valid()
    ensures |r| == HEADER_LEN
  {
    h.headid + PutWords(h.Words()) + h.info
  }

  function GetHeader(s: seq<byte>): (h: Header)
    requires |s| == HEADER_LEN
    ensures h.Valid()
  {
    var w := GetWords(s[8..56]);
    Header(s[..8], w[0], w[1], w[2], w[3], w[4], w[5], w[6], w[7], w[8], w[9], w[10], w[11], s[56..])
  }

  lemma GetHeaderPutHeader(h: Header)
    requires h.Valid()
    ensures GetHeader(PutHeader(h)) == h
  {
    var s := PutHeader(h);
    assert s[..8] == h.headid && s[8..56] == PutWords(h.Words()) && s[56..] == h.info;
    GetWordsPutWords(h.Words());
  }

  datatype AudioHead = AudioHead(
    headlen: u32,
    kind: u32,
    unknown1: u32,
    index: u32,
    fragcount: u32,
    unknown2: u32,
    unknown3: u32,
    offset: u32)
  {
    function Words(): seq<u32> {
      [headlen, kind, unknown1, index, fragcount, unknown2, unknown3, offset]
    }
  }

  function PutAudio(a: AudioHead): (r: seq<byte>)
    ensures |r| == AUDIO_LEN
  {
    PutWords(a.Words())
  }

  function GetAudio(s: seq<byte>): AudioHead
    requires |s| == AUDIO_LEN
  {
    var w := GetWords(s);
    AudioHead(w[0], w[1], w[2], w[3], w[4], w[5], w[6], w[7])
  }

  lemma GetAudioPutAudio(a: AudioHead)
    ensures GetAudio(PutAudio(a)) == a
    ensures Get32(PutAudio(a)[..4]) == a.headlen
  {
    GetWordsPutWords(a.Words());
    FirstWord(a.Words(), []);
    assert PutAudio(a) + [] == PutAudio(a);
  }

  datatype Segment = Segment(
    headlen: u32,
    kind: u32,
    valid: u32,
    offset: u32,
    time: u32,
    duration: u32,
    unknown1: u32,
    unknown2: u32,
    username: Name)
  {
    function Words(): seq<u32> {
      [headlen, kind, valid, offset, time, duration, unknown1, unknown2]
    }
  }

  function PutSegment(g: Segment): (r: seq<byte>)
    ensures |r| == SEGMENT_LEN
  {
    PutWords(g.Words()) + g.username
  }

  function GetSegment(s: seq<byte>): Segment
    requires |s| == SEGMENT_LEN
  {
    var w := GetWords(s[..32]);
    Segment(w[0], w[1], w[2], w[3], w[4], w[5], w[6], w[7], s[32..])
  }

  lemma GetSegmentPutSegment(g: Segment)
    ensures GetSegment(PutSegment(g)) == g
  {
    var s := PutSegment(g);
    assert s[..32] == PutWords(g.Words()) && s[32..] == g.username;
    GetWordsPutWords(g.Words());
  }

  /** The fixed part of an extended audio fragment. */
  datatype FragHead = FragHead(headlen: u32, fraglen: u32, pcmlen: u32, unknown1: u32, codec: u16, codecformat: u16,
                               unknown2: u32)

  function PutFrag(f: FragHead): (r: seq<byte>)
    ensures |r| == FRAGMENT_LEN
  {
    PutWords([f.headlen, f.fraglen, f.pcmlen, f.unknown1]) + Put16(f.codec) + Put16(f.codecformat) + Put32(f.unknown2)
  }

  function GetFrag(s: seq<byte>): FragHead
    requires |s| == FRAGMENT_LEN
  {
    var w := GetWords(s[..16]);
    FragHead(w[0], w[1], w[2], w[3], Get16(s[16..18]), Get16(s[18..20]), Get32(s[20..]))
  }

  lemma GetFragPutFrag(f: FragHead)
    ensures GetFrag(PutFrag(f)) == f
    ensures Get32(PutFrag(f)[..4]) == f.headlen
  {
    var s := PutFrag(f);
    var ws := [f.headlen, f.fraglen, f.pcmlen, f.unknown1];
    assert s[..16] == PutWords(ws) && s[16..18] == Put16(f.codec) && s[18..20] == Put16(f.codecformat)
        && s[20..] == Put32(f.unknown2);
    GetWordsPutWords(ws);
    Get16Put16(f.codec);
    Get16Put16(f.codecformat);
    Get32Put32(f.unknown2);
    FirstWord(ws, s[16..]);
    assert PutWords(ws) + s[16..] == s;
  }
}
