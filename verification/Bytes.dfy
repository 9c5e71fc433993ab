/** Fixed-width integers, network byte order, and the byte-sequence model of a file descriptor. */
module Bytes {

  type byte = x: int | 0 <= x < 0x100
  type u16 = x: int | 0 <= x < 0x1_0000
  type u32 = x: int | 0 <= x < 0x1_0000_0000
  /** A buffer whose length fits the C type `uint32_t`. */
  type blob = s: seq<byte> | |s| < 0x1_0000_0000

  const MOD32: int := 0x1_0000_0000

  /** What a C assignment to a `uint32_t` keeps of an integer. */
  function Wrap32(x: int): (r: u32) {
    x % 0x1_0000_0000
  }

  /** `htons` followed by a two byte copy. */
  function Put16(x: u16): (r: seq<byte>)
    ensures |r| == 2
  {
    [x / 0x100, x % 0x100]
  }

  function Get16(s: seq<byte>): u16
    requires |s| == 2
  {
    var hi: int := s[0];
    hi * 0x100 + s[1]
  }

  /** `htonl` followed by a four byte copy. */
  function Put32(x: u32): (r: seq<byte>)
    ensures |r| == 4
  {
    Put16(x / 0x1_0000) + Put16(x % 0x1_0000)
  }

  function Get32(s: seq<byte>): u32
    requires |s| == 4
  {
    var hi: int := Get16(s[..2]);
    hi * 0x1_0000 + Get16(s[2..])
  }

  lemma Get16Put16(x: u16)
    ensures Get16(Put16(x)) == x
  {
  }

  lemma Get32Put32(x: u32)
    ensures Get32(Put32(x)) == x
  {
    var s := Put32(x);
    assert s[..2] == Put16(x / 0x1_0000) && s[2..] == Put16(x % 0x1_0000);
    Get16Put16(x / 0x1_0000);
    Get16Put16(x % 0x1_0000);
  }

  lemma Put32Get32(s: seq<byte>)
    requires |s| == 4
    ensures Put32(Get32(s)) == s
  {
    assert Put16(Get16(s[..2])) == s[..2];
    assert Put16(Get16(s[2..])) == s[2..];
    assert s[..2] + s[2..] == s;
  }

  /** A packed C struct made of `uint32_t` fields only. */
  function PutWords(ws: seq<u32>): (r: seq<byte>)
    ensures |r| == 4 * |ws|
  {
    if ws == [] then [] else Put32(ws[0]) + PutWords(ws[1..])
  }

  function GetWords(s: seq<byte>): (ws: seq<u32>)
    requires |s| % 4 == 0
    ensures |s| == 4 * |ws|
  {
    if s == [] then [] else [Get32(s[..4])] + GetWords(s[4..])
  }

  lemma {:induction false} GetWordsPutWords(ws: seq<u32>)
    ensures GetWords(PutWords(ws)) == ws
  {
    if ws != [] {
      var s := PutWords(ws);
      assert s[..4] == Put32(ws[0]) && s[4..] == PutWords(ws[1..]);
      Get32Put32(ws[0]);
      GetWordsPutWords(ws[1..]);
    }
  }

  lemma {:induction false} PutWordsGetWords(s: seq<byte>)
    requires |s| % 4 == 0
    ensures PutWords(GetWords(s)) == s
  {
    if s != [] {
      Put32Get32(s[..4]);
      PutWordsGetWords(s[4..]);
      assert GetWords(s)[1..] == GetWords(s[4..]);
    }
  }

  /** The first word of a packed struct is its first four bytes. */
  lemma FirstWord(ws: seq<u32>, rest: seq<byte>)
    requires ws != []
    ensures (PutWords(ws) + rest)[..4] == Put32(ws[0])
    ensures Get32((PutWords(ws) + rest)[..4]) == ws[0]
  {
    Get32Put32(ws[0]);
  }

  function Zeros(n: nat): (r: seq<byte>)
    ensures |r| == n
    ensures forall i :: 0 <= i < n ==> r[i] == 0
  {
    seq(n, _ => 0)
  }

  /** The bytes of a C string up to its terminator. */
  function CStr(s: seq<byte>): (r: seq<byte>)
    ensures |r| <= |s|
    ensures 0 !in r
    ensures r <= s
  {
    if s == [] || s[0] == 0 then [] else [s[0]] + CStr(s[1..])
  }

  /** A string without a terminator inside is kept whole. */
  lemma {:induction false} CStrWhole(s: seq<byte>)
    requires 0 !in s
    ensures CStr(s) == s
  {
    if s != [] {
      CStrWhole(s[1..]);
    }
  }

  lemma CStrIdempotent(s: seq<byte>)
    ensures CStr(CStr(s)) == CStr(s)
  {
  }

  /** `strncpy(dst, src, n)`: at most n bytes of the string, then zero padding. */
  function Strncpy(src: seq<byte>, n: nat): (r: seq<byte>)
    ensures |r| == n
  {
    var s := CStr(src);
    if |s| >= n then s[..n] else s + Zeros(n - |s|)
  }

  /** `strncpy(dst, src, n - 1)` into an n byte field that was cleared before. */
  function NameField(src: seq<byte>, n: nat): (r: seq<byte>)
    requires n > 0
    ensures |r| == n && r[n - 1] == 0
  {
    Strncpy(src, n - 1) + [0]
  }

  /** `lseek(fd, off, SEEK_SET)` and `write`: overwrites, extends, and fills a hole with zeros. */
  function WriteAt(file: seq<byte>, off: nat, bs: seq<byte>): (r: seq<byte>)
    ensures |file| <= |r|
  {
    var base := if off <= |file| then file else file + Zeros(off - |file|);
    base[..off] + bs + (if off + |bs| < |base| then base[off + |bs|..] else [])
  }

  /** An overwrite inside the left part of a file leaves the right part alone. */
  lemma WriteAtLeft(a: seq<byte>, b: seq<byte>, off: nat, bs: seq<byte>)
    requires off + |bs| <= |a|
    ensures WriteAt(a + b, off, bs) == WriteAt(a, off, bs) + b
    ensures |WriteAt(a, off, bs)| == |a|
  {
    assert (a + b)[..off] == a[..off];
    assert (a + b)[off + |bs|..] == a[off + |bs|..] + b;
  }

  lemma WriteAtEnd(file: seq<byte>, bs: seq<byte>)
    ensures WriteAt(file, |file|, bs) == file + bs
  {
  }

  lemma WriteAtStart(a: seq<byte>, b: seq<byte>, bs: seq<byte>)
    requires |bs| == |a|
    ensures WriteAt(a + b, 0, bs) == bs + b
  {
    assert (a + b)[|bs|..] == b;
  }

  /** An overwrite that starts at the seam replaces the first bytes of the right part. */
  lemma WriteAtSeam(a: seq<byte>, b: seq<byte>, bs: seq<byte>)
    requires |bs| <= |b|
    ensures WriteAt(a + b, |a|, bs) == a + (bs + b[|bs|..])
  {
    assert (a + b)[..|a|] == a;
    assert (a + b)[|a| + |bs|..] == b[|bs|..];
  }

  /** The bytes bs stand in the file at offset off. */
  ghost predicate At(file: seq<byte>, off: nat, bs: seq<byte>) {
    off + |bs| <= |file| && file[off..off + |bs|] == bs
  }

  lemma AtParts(file: seq<byte>, off: nat, a: seq<byte>, b: seq<byte>)
    requires At(file, off, a + b)
    ensures At(file, off, a) && At(file, off + |a|, b)
  {
    var s := file[off..off + |a + b|];
    assert s[..|a|] == a && s[|a|..] == b;
    assert file[off..off + |a|] == s[..|a|];
    assert file[off + |a|..off + |a| + |b|] == s[|a|..];
  }

  lemma AtSeam(a: seq<byte>, bs: seq<byte>, b: seq<byte>)
    ensures At(a + bs + b, |a|, bs)
  {
  }

  /** Writing what is already there changes nothing. */
  lemma WriteAtSame(file: seq<byte>, off: nat, bs: seq<byte>)
    requires At(file, off, bs)
    ensures WriteAt(file, off, bs) == file
  {
    assert file == file[..off] + file[off..off + |bs|] + file[off + |bs|..];
  }

  lemma SliceOfSlice<T>(s: seq<T>, a: nat, b: nat, c: nat, d: nat)
    requires a <= b <= |s| && c <= d <= b - a
    ensures s[a..b][c..d] == s[a + c..a + d]
  {
    forall i | 0 <= i < d - c
      ensures s[a..b][c..d][i] == s[a + c..a + d][i]
    {
    }
  }
}
