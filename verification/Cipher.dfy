/** The Ventrilo stream cipher: a key position that is carried from message to message, and the mid-stream scramble. */
module Cipher {
  import opened Bytes

  /** The used part of a key buffer and the position in it. */
  datatype Key = Key(bytes: seq<byte>, pos: nat)
  {
    predicate Valid() {
      0 < |bytes| <= 256 && pos < |bytes|
    }
  }

  function Wrap8(x: int): (r: byte) {
    x % 0x100
  }

  function Next(pos: nat, size: nat): nat {
    if pos + 1 == size then 0 else pos + 1
  }

  /** The position after n more bytes. */
  function Ahead(pos: nat, size: nat, n: nat): (r: nat)
    ensures pos < size ==> r < size
  {
    if n == 0 then pos else Next(Ahead(pos, size, n - 1), size)
  }

  /** What is added to byte i of a message. */
  function Pad(k: Key, i: nat): int
    requires k.Valid()
  {
    k.bytes[Ahead(k.pos, |k.bytes|, i)] + i % 45
  }

  function Encrypted(k: Key, data: seq<byte>): (r: seq<byte>)
    requires k.Valid()
    ensures |r| == |data|
    ensures forall i :: 0 <= i < |r| ==> r[i] == Wrap8(data[i] + Pad(k, i))
  {
    seq(|data|, i requires 0 <= i < |data| => Wrap8(data[i] + Pad(k, i)))
  }

  function Decrypted(k: Key, data: seq<byte>): (r: seq<byte>)
    requires k.Valid()
    ensures |r| == |data|
    ensures forall i :: 0 <= i < |r| ==> r[i] == Wrap8(data[i] - Pad(k, i))
  {
    seq(|data|, i requires 0 <= i < |data| => Wrap8(data[i] - Pad(k, i)))
  }

  function After(k: Key, n: nat): (r: Key)
    requires k.Valid()
    ensures r.Valid()
  {
    k.(pos := Ahead(k.pos, |k.bytes|, n))
  }

  lemma WrapCancels(d: byte, p: int)
    ensures Wrap8(Wrap8(d + p) - p) == d
  {
  }

  /** Decryption undoes encryption from the same key and position, and both sides end at the same position. */
  lemma DecryptEncrypt(k: Key, data: seq<byte>)
    requires k.Valid()
    ensures Decrypted(k, Encrypted(k, data)) == data
  {
    hide Pad, Wrap8;
    forall i | 0 <= i < |data|
      ensures Decrypted(k, Encrypted(k, data))[i] == data[i]
    {
      WrapCancels(data[i], Pad(k, i));
    }
  }

  // ----- what stands on the wire

  lemma Remainder(x: nat, d: nat, q: nat, r: nat)
    requires r < d && x == d * q + r
    ensures x % d == r
  {
    var gap := x / d - q;
    assert d * (x / d) + x % d == x;
    assert d * gap == r - x % d;
  }

  lemma RemainderStep(x: nat, d: nat)
    requires 0 < d
    ensures (x + 1) % d == if x % d + 1 == d then 0 else x % d + 1
  {
    var q, r := x / d, x % d;
    assert x == d * q + r;
    if r + 1 == d {
      assert x + 1 == d * (q + 1) + 0;
      Remainder(x + 1, d, q + 1, 0);
    } else {
      Remainder(x + 1, d, q, r + 1);
    }
  }

  /** The position goes round the key. */
  lemma {:induction false} AheadGoesRound(pos: nat, size: nat, n: nat)
    requires pos < size
    ensures Ahead(pos, size, n) == (pos + n) % size
  {
    if n == 0 {
      Remainder(pos, size, 0, pos);
    } else {
      AheadGoesRound(pos, size, n - 1);
      RemainderStep(pos + n - 1, size);
    }
  }

  /** Byte i on the wire is the sum of the plaintext, the key byte that the position names, and the place in the message
      modulo 45; the position goes on round the key. */
  lemma OnTheWire(k: Key, data: seq<byte>, i: nat)
    requires k.Valid() && i < |data|
    ensures (k.pos + i) % |k.bytes| < |k.bytes|
    ensures Encrypted(k, data)[i] == (data[i] + k.bytes[(k.pos + i) % |k.bytes|] + i % 45) % 256
    ensures Decrypted(k, data)[i] == (data[i] - k.bytes[(k.pos + i) % |k.bytes|] - i % 45) % 256
    ensures After(k, |data|) == Key(k.bytes, (k.pos + |data|) % |k.bytes|)
  {
    AheadGoesRound(k.pos, |k.bytes|, i);
    AheadGoesRound(k.pos, |k.bytes|, |data|);
  }

  /** Every key byte shows: two keys encrypt a byte differently exactly if they differ where the position stands. */
  lemma KeyShows(k: Key, l: Key, data: seq<byte>, i: nat)
    requires k.Valid() && l.Valid() && |k.bytes| == |l.bytes| && k.pos == l.pos && i < |data|
    ensures (k.pos + i) % |k.bytes| < |k.bytes|
    ensures Encrypted(k, data)[i] != Encrypted(l, data)[i]
        <==> k.bytes[(k.pos + i) % |k.bytes|] != l.bytes[(k.pos + i) % |k.bytes|]
  {
    OnTheWire(k, data, i);
    OnTheWire(l, data, i);
    SumShows(data[i] + i % 45, k.bytes[(k.pos + i) % |k.bytes|], l.bytes[(k.pos + i) % |k.bytes|]);
  }

  lemma SumShows(d: nat, a: byte, b: byte)
    ensures (d + a) % 256 == (d + b) % 256 <==> a == b
  {
  }

  // ----- the first message of each direction

  const FIRST: seq<byte> := [0xAA, 0x55, 0x22, 0xCC, 0x69, 0x7C, 0x38, 0x91, 0x88, 0xF5, 0xE1]

  function FirstPad(i: nat): int {
    FIRST[i % 11] + i % 27
  }

  function FirstEncrypted(data: seq<byte>): (r: seq<byte>)
    ensures |r| == |data|
    ensures forall i :: 0 <= i < |r| ==> r[i] == Wrap8(data[i] + FirstPad(i))
  {
    seq(|data|, i requires 0 <= i < |data| => Wrap8(data[i] + FirstPad(i)))
  }

  function FirstDecrypted(data: seq<byte>): (r: seq<byte>)
    ensures |r| == |data|
    ensures forall i :: 0 <= i < |r| ==> r[i] == Wrap8(data[i] - FirstPad(i))
  {
    seq(|data|, i requires 0 <= i < |data| => Wrap8(data[i] - FirstPad(i)))
  }

  lemma FirstDecryptEncrypt(data: seq<byte>)
    ensures FirstDecrypted(FirstEncrypted(data)) == data
  {
    hide FirstPad, Wrap8;
    forall i | 0 <= i < |data|
      ensures FirstDecrypted(FirstEncrypted(data))[i] == data[i]
    {
      WrapCancels(data[i], FirstPad(i));
    }
  }

  lemma FirstOnTheWire(data: seq<byte>, i: nat)
    requires i < |data|
    ensures var first: seq<int> := [170, 85, 34, 204, 105, 124, 56, 145, 136, 245, 225]; (
              && FirstEncrypted(data)[i] == (data[i] + first[i % 11] + i % 27) % 256
              && FirstDecrypted(data)[i] == (data[i] - first[i % 11] - i % 27) % 256)
  {
    var first: seq<int> := [170, 85, 34, 204, 105, 124, 56, 145, 136, 245, 225];
    assert FIRST[i % 11] == first[i % 11];
  }

  // ----- scrambling

  type HandshakeKey = s: seq<byte> | |s| == 64 witness Zeros(64)

  /** Byte i of the key buffer before the scramble; a short key counts as zero-filled. */
  function Old(bytes: seq<byte>, i: nat): byte {
    if i < |bytes| then bytes[i] else 0
  }

  function ScrambledByte(bytes: seq<byte>, v3key: HandshakeKey, size: nat, i: nat): byte {
    var sum := Wrap8(Old(bytes, i) + (if i < 64 then v3key[i] else i + size));
    if sum == 0 then Wrap8(i + 36) else sum
  }

  function ScrambledSize(bytes: seq<byte>): nat {
    if |bytes| < 64 then 64 else |bytes|
  }

  function Scrambled(k: Key, v3key: HandshakeKey): (r: Key)
    ensures |r.bytes| == ScrambledSize(k.bytes)
    ensures forall i :: 0 <= i < |r.bytes| ==> r.bytes[i] == ScrambledByte(k.bytes, v3key, |r.bytes|, i)
  {
    var size := ScrambledSize(k.bytes);
    Key(seq(size, i requires 0 <= i < size => ScrambledByte(k.bytes, v3key, size, i)), 0)
  }

  /** After a scramble the key has at least 64 bytes and starts over, and no byte is zero with one exception: byte 220,
      whose replacement value 256 wraps to zero. */
  lemma ScrambledKey(k: Key, v3key: HandshakeKey)
    requires |k.bytes| <= 256
    ensures var r := Scrambled(k, v3key); (
              && r.Valid() && |r.bytes| >= 64 && r.pos == 0
              && forall i :: 0 <= i < |r.bytes| ==>
                   (r.bytes[i] == 0 <==> i == 220 && Wrap8(Old(k.bytes, i) + i + |r.bytes|) == 0))
  {
    var r := Scrambled(k, v3key);
    forall i | 0 <= i < |r.bytes|
      ensures r.bytes[i] == 0 <==> i == 220 && Wrap8(Old(k.bytes, i) + i + |r.bytes|) == 0
    {
      assert r.bytes[i] == ScrambledByte(k.bytes, v3key, |r.bytes|, i);
    }
  }

  /** Byte i of a scrambled key: the first 64 take in the handshake key, the others their place and the size. */
  lemma ScrambledAt(k: Key, v3key: HandshakeKey, i: nat)
    requires i < 64 || i < |k.bytes|
    ensures var r := Scrambled(k, v3key);
            var was: int := if i < |k.bytes| then k.bytes[i] else 0;
            var sum := if i < 64 then (was + v3key[i]) % 256 else (was + i + |k.bytes|) % 256; (
              && |r.bytes| == (if |k.bytes| < 64 then 64 else |k.bytes|) && r.pos == 0
              && r.bytes[i] == if sum != 0 then sum else (i + 36) % 256)
  {
    assert Scrambled(k, v3key).bytes[i] == ScrambledByte(k.bytes, v3key, ScrambledSize(k.bytes), i);
  }

  /** The handshake key shows in the scrambled one: two of them give the same byte only if they agree there, or if one
      makes the sum zero and the other makes it the replacement of zero. */
  lemma HandshakeShows(k: Key, v: HandshakeKey, w: HandshakeKey, i: nat)
    requires i < 64
    ensures var was: int := if i < |k.bytes| then k.bytes[i] else 0; (
              Scrambled(k, v).bytes[i] == Scrambled(k, w).bytes[i]
              <==> v[i] == w[i]
                   || ((was + v[i]) % 256 == 0 && (was + w[i]) % 256 == i + 36)
                   || ((was + w[i]) % 256 == 0 && (was + v[i]) % 256 == i + 36))
  {
    var was: int := if i < |k.bytes| then k.bytes[i] else 0;
    ScrambledAt(k, v, i);
    ScrambledAt(k, w, i);
    SumShows(was, v[i], w[i]);
  }

  // ----- the buffers

  /** `ventrilo_key_ctx`. */
  class KeyCtx {
    const key: array<byte>
    var pos: nat
    var size: nat

    ghost predicate Valid()
      reads this, key
    {
      key.Length == 256 && size <= 256 && State().bytes == key[..size]
    }

    ghost function State(): Key
      requires key.Length == 256 && size <= 256
      reads this, key
    {
      Key(key[..size], pos)
    }

    constructor ()
      ensures Valid() && fresh(key) && State() == Key([], 0)
    {
      key := new byte[256](_ => 0);
      pos := 0;
      size := 0;
    }

    /** `ventrilo_enc`: in place, moving the position along. */
    method Encrypt(data: array<byte>)
      requires Valid() && State().Valid() && data != key
      modifies this`pos, data
      ensures Valid() && State() == After(old(State()), data.Length)
      ensures data[..] == Encrypted(old(State()), old(data[..]))
    {
      ghost var k, was := State(), data[..];
      for i := 0 to data.Length
        invariant Valid() && key[..size] == k.bytes && pos == Ahead(k.pos, size, i)
        invariant forall j :: 0 <= j < i ==> data[j] == Wrap8(was[j] + Pad(k, j))
        invariant forall j :: i <= j < data.Length ==> data[j] == was[j]
      {
        assert key[pos] == k.bytes[pos];
        data[i] := (data[i] + key[pos] + i % 45) % 0x100;
        pos := if pos + 1 == size then 0 else pos + 1;
      }
      assert data[..] == Encrypted(k, was);
    }

    /** `ventrilo_dec`. */
    method Decrypt(data: array<byte>)
      requires Valid() && State().Valid() && data != key
      modifies this`pos, data
      ensures Valid() && State() == After(old(State()), data.Length)
      ensures data[..] == Decrypted(old(State()), old(data[..]))
    {
      ghost var k, was := State(), data[..];
      for i := 0 to data.Length
        invariant Valid() && key[..size] == k.bytes && pos == Ahead(k.pos, size, i)
        invariant forall j :: 0 <= j < i ==> data[j] == Wrap8(was[j] - Pad(k, j))
        invariant forall j :: i <= j < data.Length ==> data[j] == was[j]
      {
        assert key[pos] == k.bytes[pos];
        data[i] := (data[i] - (key[pos] + i % 45)) % 0x100;
        pos := if pos + 1 == size then 0 else pos + 1;
      }
      assert data[..] == Decrypted(k, was);
    }

    /** A short key is filled up to 64 bytes. */
    method ZeroFill()
      requires Valid() && size < 64
      modifies this`size, key
      ensures Valid() && size == 64
      ensures forall j :: 0 <= j < 64 ==> key[j] == Old(old(State().bytes), j)
    {
      ghost var bytes := State().bytes;
      for i := size to 64
        invariant size == |bytes| && key[..size] == bytes
        invariant forall j :: size <= j < i ==> key[j] == 0
      {
        key[i] := 0;
      }
      size := 64;
    }

    /** `ventrilo3_algo_scramble`. */
    method Scramble(v3key: HandshakeKey)
      requires Valid()
      modifies this, key
      ensures Valid() && State() == Scrambled(old(State()), v3key)
    {
      ghost var k := State();
      if size < 64 {
        ZeroFill();
      }
      for i := 0 to size
        invariant size == ScrambledSize(k.bytes) <= 256
        invariant forall j :: 0 <= j < i ==> key[j] == ScrambledByte(k.bytes, v3key, size, j)
        invariant forall j :: i <= j < size ==> key[j] == Old(k.bytes, j)
      {
        if i < 64 {
          key[i] := Wrap8(key[i] as int + v3key[i]);
        } else {
          key[i] := Wrap8(key[i] as int + i + size);
        }
        if key[i] == 0 {
          key[i] := (i + 36) % 0x100;
        }
      }
      pos := 0;
      assert key[..size] == Scrambled(k, v3key).bytes;
    }
  }
}
