/** The table-driven checksum: equal to the bitwise one, linear, and able to tell any two four byte bursts apart. */
module Checksum {
  import opened CrcTable

  /** One byte, through the table. */
  function Step(crc: bv32, b: bv8): bv32 {
    Entry(b ^ ((crc & 0xff) as bv8)) ^ (crc >> 8)
  }

  function Crc(s: seq<bv8>, crc: bv32): bv32 {
    if s == [] then crc else Crc(s[1..], Step(crc, s[0]))
  }

  /** Addition modulo two, bit by bit. */
  function Plus(x: bv32, y: bv32): bv32 {
    x ^ y
  }

  function Wide(b: bv8): bv32 {
    b as bv32
  }

  /** The reference: fold in the byte, then eight single-bit steps. */
  function BitwiseCrc(s: seq<bv8>, crc: bv32): bv32 {
    if s == [] then crc else BitwiseCrc(s[1..], Bit8(Plus(crc, Wide(s[0]))))
  }

  // ----- addition modulo two

  lemma PlusCommutes(a: bv32, b: bv32)
    ensures Plus(a, b) == Plus(b, a)
  {
  }

  lemma PlusAssociates(a: bv32, b: bv32, x: bv32)
    ensures Plus(a, Plus(b, x)) == Plus(Plus(a, b), x)
  {
  }

  lemma PlusItself(a: bv32)
    ensures Plus(a, a) == 0 && Plus(a, 0) == a
  {
  }

  lemma PlusRegroups(a: bv32, b: bv32, x: bv32, y: bv32)
    ensures Plus(Plus(a, b), Plus(x, y)) == Plus(Plus(a, x), Plus(b, y))
  {
    hide Plus;
    PlusAssociates(Plus(a, b), x, y);
    PlusAssociates(a, b, x);
    PlusCommutes(b, x);
    PlusAssociates(a, x, b);
    PlusAssociates(Plus(a, x), b, y);
  }

  lemma PlusTwice(a: bv32, b: bv32)
    ensures Plus(Plus(a, b), b) == a
  {
    hide Plus;
    PlusAssociates(a, b, b);
    PlusItself(b);
    PlusItself(a);
  }

  lemma PlusCancels(a: bv32, b: bv32, x: bv32)
    ensures Plus(a, b) == 0 <==> a == b
    ensures Plus(a, x) == Plus(b, x) <==> a == b
    ensures Plus(x, a) == Plus(x, b) <==> a == b
  {
    hide Plus;
    PlusTwice(a, b);
    PlusCommutes(0, b);
    PlusItself(b);
    PlusTwice(a, x);
    PlusTwice(b, x);
    PlusCommutes(x, a);
    PlusCommutes(x, b);
  }

  // ----- one bit, then eight

  lemma LowBit(x: bv32)
    ensures x & 1 == 0 || x & 1 == 1
  {
  }

  lemma BitLinear(x: bv32, y: bv32)
    ensures Bit(Plus(x, y)) == Plus(Bit(x), Bit(y))
  {
    assert (x ^ y) >> 1 == (x >> 1) ^ (y >> 1);
    assert (x ^ y) & 1 == (x & 1) ^ (y & 1);
    LowBit(x);
    LowBit(y);
  }

  lemma TopBit(x: bv32)
    ensures ((x >> 1) ^ 0xEDB88320) & 0x8000_0000 == 0x8000_0000
    ensures x >> 1 == 0 && x & 1 == 0 ==> x == 0
  {
  }

  lemma BitKernel(x: bv32)
    requires Bit(x) == 0
    ensures x == 0
  {
    LowBit(x);
    TopBit(x);
  }

  lemma Bit8Linear(x: bv32, y: bv32)
    ensures Bit8(Plus(x, y)) == Plus(Bit8(x), Bit8(y))
  {
    hide Bit, Plus;
    BitLinear(x, y);
    var x1, y1 := Bit(x), Bit(y);
    BitLinear(x1, y1);
    var x2, y2 := Bit(x1), Bit(y1);
    BitLinear(x2, y2);
    var x3, y3 := Bit(x2), Bit(y2);
    BitLinear(x3, y3);
    var x4, y4 := Bit(x3), Bit(y3);
    BitLinear(x4, y4);
    var x5, y5 := Bit(x4), Bit(y4);
    BitLinear(x5, y5);
    var x6, y6 := Bit(x5), Bit(y5);
    BitLinear(x6, y6);
    BitLinear(Bit(x6), Bit(y6));
  }

  lemma Bit8Kernel(x: bv32)
    requires Bit8(x) == 0
    ensures x == 0
  {
    hide Bit;
    BitKernel(Bit(Bit(Bit(Bit(Bit(Bit(Bit(x))))))));
    BitKernel(Bit(Bit(Bit(Bit(Bit(Bit(x)))))));
    BitKernel(Bit(Bit(Bit(Bit(Bit(x))))));
    BitKernel(Bit(Bit(Bit(Bit(x)))));
    BitKernel(Bit(Bit(Bit(x))));
    BitKernel(Bit(Bit(x)));
    BitKernel(Bit(x));
    BitKernel(x);
  }

  lemma Bit8Injective(x: bv32, y: bv32)
    requires Bit8(x) == Bit8(y)
    ensures x == y
  {
    hide Bit8, Plus;
    Bit8Linear(x, y);
    PlusCancels(Bit8(x), Bit8(y), 0);
    Bit8Kernel(Plus(x, y));
    PlusCancels(x, y, 0);
  }

  /** Without low bits eight steps only shift. */
  lemma Bit8Shifts(x: bv32)
    requires x & 0xff == 0
    ensures Bit8(x) == x >> 8
  {
  }

  // ----- the table does what eight bits do

  function Index(crc: bv32, b: bv8): bv8 {
    b ^ ((crc & 0xff) as bv8)
  }

  function High(crc: bv32): bv32 {
    crc & 0xffff_ff00
  }

  lemma StepParts(crc: bv32, b: bv8)
    ensures Plus(Wide(Index(crc, b)), High(crc)) == Plus(crc, Wide(b))
    ensures High(crc) & 0xff == 0 && High(crc) >> 8 == crc >> 8
  {
  }

  lemma StepIsSum(crc: bv32, b: bv8)
    ensures Step(crc, b) == Plus(Entry(Index(crc, b)), crc >> 8)
  {
    hide Entry;
  }

  lemma EntryIsBitwise(i: bv8)
    ensures Entry(i) == Bit8(Wide(i))
  {
    hide Entry, Bit8;
    TableIsBitwise(i);
  }

  lemma StepIsBitwise(crc: bv32, b: bv8)
    ensures Step(crc, b) == Bit8(Plus(crc, Wide(b)))
  {
    hide *;
    StepIsSum(crc, b);
    EntryIsBitwise(Index(crc, b));
    StepParts(crc, b);
    Bit8Shifts(High(crc));
    Bit8Linear(Wide(Index(crc, b)), High(crc));
  }

  /** The two checksums agree on every message. */
  lemma {:induction false} TableCrcIsBitwise(s: seq<bv8>, crc: bv32)
    ensures Crc(s, crc) == BitwiseCrc(s, crc)
  {
    hide Step, Bit8, Plus, Wide;
    if s != [] {
      StepIsBitwise(crc, s[0]);
      TableCrcIsBitwise(s[1..], Step(crc, s[0]));
    }
  }

  // ----- linear

  function Xor(s: seq<bv8>, t: seq<bv8>): (r: seq<bv8>)
    requires |s| == |t|
    ensures |r| == |s|
  {
    seq(|s|, i requires 0 <= i < |s| => s[i] ^ t[i])
  }

  lemma XorTail(s: seq<bv8>, t: seq<bv8>)
    requires |s| == |t| && s != []
    ensures Xor(s, t)[1..] == Xor(s[1..], t[1..])
    ensures Wide(Xor(s, t)[0]) == Plus(Wide(s[0]), Wide(t[0]))
  {
    WideXor(s[0], t[0]);
  }

  lemma WideXor(x: bv8, y: bv8)
    ensures Wide(x ^ y) == Plus(Wide(x), Wide(y))
  {
  }

  /** Checksums of messages of one length add up as the messages do. */
  lemma {:induction false} CrcLinear(s: seq<bv8>, t: seq<bv8>, a: bv32, b: bv32)
    requires |s| == |t|
    ensures Crc(Xor(s, t), Plus(a, b)) == Plus(Crc(s, a), Crc(t, b))
    decreases |s|
  {
    hide Step, Bit8, Plus, Wide, Xor;
    if s != [] {
      XorTail(s, t);
      StepIsBitwise(a, s[0]);
      StepIsBitwise(b, t[0]);
      StepIsBitwise(Plus(a, b), Xor(s, t)[0]);
      PlusRegroups(a, b, Wide(s[0]), Wide(t[0]));
      Bit8Linear(Plus(a, Wide(s[0])), Plus(b, Wide(t[0])));
      CrcLinear(s[1..], t[1..], Step(a, s[0]), Step(b, t[0]));
    }
  }

  // ----- injective

  /** A message never merges two different running values. */
  lemma {:induction false} CrcInjectiveInState(s: seq<bv8>, a: bv32, b: bv32)
    requires Crc(s, a) == Crc(s, b)
    ensures a == b
  {
    hide Step, Bit8, Plus, Wide;
    if s != [] {
      CrcInjectiveInState(s[1..], Step(a, s[0]), Step(b, s[0]));
      StepIsBitwise(a, s[0]);
      StepIsBitwise(b, s[0]);
      Bit8Injective(Plus(a, Wide(s[0])), Plus(b, Wide(s[0])));
      PlusCancels(a, b, Wide(s[0]));
    }
  }

  function Up(x: bv32): bv32 {
    x << 8
  }

  /** Four bytes as the word whose bytes they are, lowest first. */
  function Word(w: seq<bv8>): bv32
    requires |w| == 4
  {
    Plus(Plus(Plus(Wide(w[0]), Up(Wide(w[1]))), Up(Up(Wide(w[2])))), Up(Up(Up(Wide(w[3])))))
  }

  function Bit32(x: bv32): bv32 {
    Bit8(Bit8(Bit8(Bit8(x))))
  }

  predicate Small(x: bv32) {
    x & 0xff00_0000 == 0
  }

  /** A value below 2^24 can be folded in before eight steps instead of after them. */
  lemma Lifted(x: bv32, v: bv32)
    requires Small(v)
    ensures Plus(Bit8(x), v) == Bit8(Plus(x, Up(v)))
  {
    hide Bit8, Plus;
    ShiftBack(v);
    Bit8Shifts(Up(v));
    Bit8Linear(x, Up(v));
  }

  lemma ShiftBack(v: bv32)
    requires Small(v)
    ensures Up(v) & 0xff == 0 && Up(v) >> 8 == v
  {
  }

  lemma SmallBytes(b: bv8)
    ensures Small(Wide(b)) && Small(Up(Wide(b))) && Small(Up(Up(Wide(b))))
  {
  }

  lemma FourSteps(w: seq<bv8>, crc: bv32)
    requires |w| == 4
    ensures Crc(w, crc) == Step(Step(Step(Step(crc, w[0]), w[1]), w[2]), w[3])
  {
    hide Step;
    var a := Step(crc, w[0]);
    var b := Step(a, w[1]);
    var c := Step(b, w[2]);
    assert w[1..][1..] == w[2..] && w[2..][1..] == w[3..];
    assert Crc(w[1..], a) == Crc(w[2..], b) && Crc(w[2..], b) == Crc(w[3..], c);
    assert Crc(w[3..], c) == Crc([], Step(c, w[3]));
  }

  /** Four table steps are thirty-two single-bit steps on the word. */
  lemma CrcOfWord(w: seq<bv8>, crc: bv32)
    requires |w| == 4
    ensures Crc(w, crc) == Bit32(Plus(crc, Word(w)))
  {
    hide Bit8, Step, Crc, Plus, Wide, Up, Small;
    FourSteps(w, crc);
    var a, b, c, d := Wide(w[0]), Wide(w[1]), Wide(w[2]), Wide(w[3]);
    SmallBytes(w[1]);
    SmallBytes(w[2]);
    SmallBytes(w[3]);
    StepIsBitwise(crc, w[0]);
    var x := Plus(crc, a);
    StepIsBitwise(Bit8(x), w[1]);
    Lifted(x, b);
    var y := Plus(x, Up(b));
    StepIsBitwise(Bit8(Bit8(y)), w[2]);
    Lifted(Bit8(y), c);
    Lifted(y, Up(c));
    var z := Plus(y, Up(Up(c)));
    StepIsBitwise(Bit8(Bit8(Bit8(z))), w[3]);
    Lifted(Bit8(Bit8(z)), d);
    Lifted(Bit8(z), Up(d));
    Lifted(z, Up(Up(d)));
    XorGroups(crc, a, Up(b), Up(Up(c)), Up(Up(Up(d))));
  }

  lemma XorGroups(x: bv32, a: bv32, b: bv32, c: bv32, d: bv32)
    ensures Plus(x, Plus(Plus(Plus(a, b), c), d)) == Plus(Plus(Plus(Plus(x, a), b), c), d)
  {
    hide Plus;
    PlusAssociates(x, Plus(Plus(a, b), c), d);
    PlusAssociates(x, Plus(a, b), c);
    PlusAssociates(x, a, b);
  }

  lemma WordInjective(x: seq<bv8>, y: seq<bv8>)
    requires |x| == |y| == 4 && Word(x) == Word(y)
    ensures x == y
  {
    ByteOfWord(x[0], x[1], x[2], x[3]);
    ByteOfWord(y[0], y[1], y[2], y[3]);
  }

  lemma ByteOfWord(a: bv8, b: bv8, c: bv8, d: bv8)
    ensures (
      var w := Plus(Plus(Plus(Wide(a), Up(Wide(b))), Up(Up(Wide(c)))), Up(Up(Up(Wide(d)))));
      && (w & 0xff) as bv8 == a && ((w >> 8) & 0xff) as bv8 == b
      && ((w >> 16) & 0xff) as bv8 == c && ((w >> 24) & 0xff) as bv8 == d)
  {
  }

  lemma Bit32Injective(x: bv32, y: bv32)
    requires Bit32(x) == Bit32(y)
    ensures x == y
  {
    hide Bit8;
    Bit8Injective(Bit8(Bit8(Bit8(x))), Bit8(Bit8(Bit8(y))));
    Bit8Injective(Bit8(Bit8(x)), Bit8(Bit8(y)));
    Bit8Injective(Bit8(x), Bit8(y));
    Bit8Injective(x, y);
  }

  lemma {:induction false} CrcConcat(s: seq<bv8>, t: seq<bv8>, crc: bv32)
    ensures Crc(s + t, crc) == Crc(t, Crc(s, crc))
  {
    hide Step;
    if s == [] {
      assert s + t == t;
    } else {
      assert (s + t)[1..] == s[1..] + t;
      CrcConcat(s[1..], t, Step(crc, s[0]));
    }
  }

  /** Two messages that differ only inside one window of four bytes never have the same checksum. */
  lemma BurstDetected(before: seq<bv8>, x: seq<bv8>, y: seq<bv8>, after: seq<bv8>, crc: bv32)
    requires |x| == |y| == 4
    ensures Crc(before + x + after, crc) == Crc(before + y + after, crc) <==> x == y
  {
    hide Crc, Step, Word, Plus, Bit32;
    var c := Crc(before, crc);
    CrcConcat(before + x, after, crc);
    CrcConcat(before + y, after, crc);
    CrcConcat(before, x, crc);
    CrcConcat(before, y, crc);
    if Crc(before + x + after, crc) == Crc(before + y + after, crc) {
      CrcInjectiveInState(after, Crc(x, c), Crc(y, c));
      CrcOfWord(x, c);
      CrcOfWord(y, c);
      Bit32Injective(Plus(c, Word(x)), Plus(c, Word(y)));
      PlusCancels(Word(x), Word(y), c);
      WordInjective(x, y);
    }
  }
}
