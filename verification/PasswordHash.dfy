/** The password hash: 32 rounds, each taking a checksum of everything before it from scratch. */
module PasswordHash {
  import opened CrcTable
  import opened Checksum

  /** `htonl` into four bytes. */
  function BigEndian(x: bv32): (r: seq<bv8>)
    ensures |r| == 4
  {
    [((x >> 24) & 0xff) as bv8, ((x >> 16) & 0xff) as bv8, ((x >> 8) & 0xff) as bv8, (x & 0xff) as bv8]
  }

  /** The first count, from this one on, that points at a nonzero byte; the loop stops within four steps. */
  function Skip(tmp: seq<bv8>, cnt: nat): (r: nat)
    requires |tmp| == 4
    ensures cnt <= r < cnt + 4
    ensures forall c :: cnt <= c < r ==> tmp[c % 4] == 0
    ensures tmp != [0, 0, 0, 0] ==> tmp[r % 4] != 0
  {
    if tmp[cnt % 4] != 0 then cnt
    else if tmp[(cnt + 1) % 4] != 0 then cnt + 1
    else if tmp[(cnt + 2) % 4] != 0 then cnt + 2
    else cnt + 3
  }

  /** What the rounds carry along; `cnt` is only used modulo four, which its wrap at 2^32 does not disturb. */
  datatype Work = Work(hash: seq<bv8>, tmp: seq<bv8>, cnt: nat)

  function Value(b: bv8): nat {
    b as nat
  }

  function Mixed(x: bv8, y: bv8): bv8 {
    ((x + y) - 0x3f) & 0x7f
  }

  function Add(x: bv8, y: bv8): bv8 {
    x + y
  }

  predicate Fit(w: Work) {
    |w.tmp| == 4
  }

  /** The byte of this round before the checksum is added: of the password, or made of an earlier byte of the hash. */
  function Raw(password: seq<bv8>, w: Work): bv8
    requires password != [] && Fit(w)
  {
    var i := |w.hash|;
    if i < |password| then password[i] else Mixed(w.tmp[(w.cnt + 1) % 4], w.hash[i - |password|])
  }

  /** The checksum of the finished bytes and the raw one, as one step from the checksum of the finished bytes. */
  function Sum(password: seq<bv8>, w: Work): bv32
    requires password != [] && Fit(w)
  {
    Step(Crc(w.hash, 0), Raw(password, w))
  }

  function Round(password: seq<bv8>, w: Work): (r: Work)
    requires password != [] && Fit(w)
    ensures Fit(r)
  {
    var tmp := BigEndian(Sum(password, w));
    var start := w.cnt + Value(Raw(password, w));
    var cnt := if Sum(password, w) != 0 then Skip(tmp, start) else start;
    Work(w.hash + [Add(Raw(password, w), tmp[cnt % 4])], tmp, cnt + 1)
  }

  function Rounds(password: seq<bv8>, n: nat): (w: Work)
    requires password != []
    ensures Fit(w) && |w.hash| == n
  {
    if n == 0 then Work([], [0, 0, 0, 0], |password|) else Round(password, Rounds(password, n - 1))
  }

  lemma NonzeroByte(x: bv32)
    ensures BigEndian(x) == [0, 0, 0, 0] <==> x == 0
  {
  }

  lemma CrcSnoc(s: seq<bv8>, b: bv8)
    ensures Crc(s + [b], 0) == Step(Crc(s, 0), b)
  {
    hide Step;
    CrcConcat(s, [b], 0);
    assert Crc([b], Crc(s, 0)) == Crc([], Step(Crc(s, 0), b));
  }

  method HashPassword(password: seq<bv8>, hash: array<bv8>)
    requires password != [] && 0 !in password && hash.Length == 32
    modifies hash
    ensures hash[..] == Rounds(password, 32).hash
  {
    hide Rounds, Round;
    var cnt: nat := |password|;
    var tmp: seq<bv8> := [0, 0, 0, 0];
    var i := 0;
    NoRounds(password);
    while i < 32
      invariant 0 <= i <= 32 && |tmp| == 4
      invariant Work(hash[..i], tmp, cnt) == Rounds(password, i)
    {
      NextRound(password, i);
      tmp, cnt := HashByte(password, hash, i, tmp, cnt);
      i := i + 1;
    }
    assert hash[..32] == hash[..];
  }

  /** The body of the loop. */
  method HashByte(password: seq<bv8>, hash: array<bv8>, i: nat, before: seq<bv8>, count: nat)
    returns (tmp: seq<bv8>, cnt: nat)
    requires password != [] && i < hash.Length && |before| == 4
    modifies hash
    ensures |tmp| == 4
    ensures Work(hash[..i + 1], tmp, cnt) == Round(password, Work(old(hash[..i]), before, count))
  {
    hide Crc, Step, BigEndian, Skip, Value, Mixed, Add;
    ghost var w := Work(hash[..i], before, count);
    var raw := if i < |password| then password[i] else Mixed(before[(count + 1) % 4], hash[i - |password|]);
    hash[i] := raw;
    assert hash[..i + 1] == w.hash + [raw];
    var crc := ChecksumOf(hash, i + 1);
    CrcSnoc(w.hash, raw);
    tmp, cnt := BigEndian(crc), count + Value(hash[i]);
    if crc != 0 {
      cnt := SkipZeros(tmp, crc, cnt);
    }
    hash[i] := Add(hash[i], tmp[cnt % 4]);
    assert hash[..i + 1] == w.hash + [Add(raw, tmp[cnt % 4])];
    cnt := cnt + 1;
  }

  lemma NoRounds(password: seq<bv8>)
    requires password != []
    ensures Rounds(password, 0) == Work([], [0, 0, 0, 0], |password|)
  {
  }

  lemma NextRound(password: seq<bv8>, i: nat)
    requires password != []
    ensures Rounds(password, i + 1) == Round(password, Rounds(password, i))
  {
  }

  method ChecksumOf(hash: array<bv8>, n: nat) returns (crc: bv32)
    requires n <= hash.Length
    ensures crc == Crc(hash[..n], 0)
  {
    hide Step;
    var j := 0;
    crc := 0;
    while j < n
      invariant 0 <= j <= n && crc == Crc(hash[..j], 0)
    {
      CrcSnoc(hash[..j], hash[j]);
      assert hash[..j] + [hash[j]] == hash[..j + 1];
      crc := NextCrc(crc, hash[j]);
      j := j + 1;
    }
  }

  method NextCrc(crc: bv32, b: bv8) returns (r: bv32)
    ensures r == Step(crc, b)
  {
    r := Entry(b ^ ((crc & 0xff) as bv8)) ^ (crc >> 8);
  }

  method SkipZeros(tmp: seq<bv8>, crc: bv32, start: nat) returns (cnt: nat)
    requires crc != 0 && tmp == BigEndian(crc)
    ensures cnt == Skip(tmp, start)
  {
    hide BigEndian;
    NonzeroByte(crc);
    cnt := start;
    while tmp[cnt % 4] == 0
      invariant start <= cnt <= Skip(tmp, start)
      decreases start + 4 - cnt
    {
      cnt := cnt + 1;
    }
  }

  // ----- what the rounds amount to

  /** A finished byte is never touched again. */
  lemma {:induction false} EarlierBytesStay(password: seq<bv8>, i: nat, n: nat)
    requires password != [] && i <= n
    ensures Rounds(password, n).hash[..i] == Rounds(password, i).hash
  {
    hide Round, Crc, Step, BigEndian, Skip;
    if i < n {
      EarlierBytesStay(password, i, n - 1);
      RoundAppends(password, Rounds(password, n - 1));
    }
  }

  lemma RoundAppends(password: seq<bv8>, w: Work)
    requires password != [] && Fit(w)
    ensures Round(password, w).hash[..|w.hash|] == w.hash
  {
  }

  /** The sum a round takes over all bytes so far, from scratch, is eight bitwise steps from the bitwise checksum of the
      bytes that stand there in the end. */
  lemma SumIsIncremental(password: seq<bv8>, i: nat, n: nat)
    requires password != [] && i < n
    ensures (
      var w := Rounds(password, i);
      var final := Rounds(password, n).hash;
      && final[..i] == w.hash
      && Sum(password, w) == Crc(w.hash + [Raw(password, w)], 0)
      && Sum(password, w) == Bit8(Plus(BitwiseCrc(final[..i], 0), Wide(Raw(password, w)))))
  {
    hide *;
    var w := Rounds(password, i);
    EarlierBytesStay(password, i, n);
    CrcSnoc(w.hash, Raw(password, w));
    TableCrcIsBitwise(w.hash, 0);
    StepIsBitwise(Crc(w.hash, 0), Raw(password, w));
    SumIsStep(password, w);
  }

  lemma SumIsStep(password: seq<bv8>, w: Work)
    requires password != [] && Fit(w)
    ensures Sum(password, w) == Step(Crc(w.hash, 0), Raw(password, w))
  {
    hide Step, Crc, Raw;
  }

  /** A round leaves its raw byte as it is exactly when that byte is the whole checksum of the bytes before it. */
  lemma RawSurvivesIff(password: seq<bv8>, i: nat, n: nat)
    requires password != [] && i < n
    ensures (
      var w := Rounds(password, i);
      Rounds(password, n).hash[i] == Raw(password, w) <==> Crc(w.hash, 0) == Wide(Raw(password, w)))
  {
    hide *;
    var w := Rounds(password, i);
    EarlierBytesStay(password, i + 1, n);
    assert Rounds(password, n).hash[..i + 1][i] == Rounds(password, n).hash[i];
    NextRound(password, i);
    ByteAdded(password, w);
    ZeroStep(Crc(w.hash, 0), Raw(password, w));
  }

  lemma ZeroStep(crc: bv32, b: bv8)
    ensures Step(crc, b) == 0 <==> crc == Wide(b)
  {
    hide *;
    StepIsBitwise(crc, b);
    PlusCancels(crc, Wide(b), 0);
    if Step(crc, b) == 0 {
      Bit8Kernel(Plus(crc, Wide(b)));
    }
    Bit8Zero();
  }

  lemma Bit8Zero()
    ensures Bit8(0) == 0
  {
  }

  lemma ByteAdded(password: seq<bv8>, w: Work)
    requires password != [] && Fit(w)
    ensures |Round(password, w).hash| == |w.hash| + 1
    ensures Round(password, w).hash[|w.hash|] == Raw(password, w) <==> Step(Crc(w.hash, 0), Raw(password, w)) == 0
  {
    hide BigEndian, Skip, Raw, Step, Crc, Add, Value;
    var sum := Sum(password, w);
    var tmp := BigEndian(sum);
    var start := w.cnt + Value(Raw(password, w));
    NonzeroByte(sum);
    AddNothing(Raw(password, w), tmp[(if sum != 0 then Skip(tmp, start) else start) % 4]);
  }

  lemma AddNothing(x: bv8, y: bv8)
    ensures Add(x, y) == x <==> y == 0
  {
  }

  // ----- what each byte of the finished hash is made of

  /** The four bytes of a sum, the highest one first, give the sum. */
  lemma BigEndianValue(x: bv32)
    ensures (
      var s := BigEndian(x);
      x == ((s[0] as bv32) << 24) | ((s[1] as bv32) << 16) | ((s[2] as bv32) << 8) | (s[3] as bv32))
  {
  }

  /** The sum a round leaves behind for the next one; nothing before the first. */
  function LastSum(password: seq<bv8>, i: nat): bv32
    requires password != []
  {
    if i == 0 then 0 else Sum(password, Rounds(password, i - 1))
  }

  lemma TmpIsLastSum(password: seq<bv8>, i: nat)
    requires password != []
    ensures Rounds(password, i).tmp == BigEndian(LastSum(password, i))
  {
    hide Sum, Raw, Skip, Value, Add, Crc, Step;
  }

  /** Count k points, cyclically, at the first nonzero byte from count `start` on. */
  predicate FirstNonzero(tmp: seq<bv8>, start: nat, k: nat) {
    && |tmp| == 4 && start <= k < start + 4 && tmp[k % 4] != 0
    && forall c :: start <= c < k ==> tmp[c % 4] == 0
  }

  /** Byte i comes from a raw byte: of the password as far as that goes, and otherwise seven bits of the sum of an
      earlier byte of the hash, a byte of the sum before, and 65. */
  predicate RawFrom(raw: bv8, password: seq<bv8>, final: seq<bv8>, i: nat, before: seq<bv8>, count: nat)
    requires password != [] && i < |final| && |before| == 4
  {
    raw == if i < |password| then password[i] else (before[(count + 1) % 4] + final[i - |password|] + 65) & 127
  }

  /** Byte i is its raw byte, and a byte of the sum over everything up to it: the first nonzero one from a place that
      the count and the raw byte give. The next round goes on behind that place. */
  predicate Made(final: seq<bv8>, i: nat, raw: bv8, count: nat, sum: bv32, next: nat)
    requires i < |final|
  {
    && sum == Crc(final[..i] + [raw], 0)
    && if sum == 0 then final[i] == raw && next == count + Value(raw) + 1
       else next > 0 && FirstNonzero(BigEndian(sum), count + Value(raw), next - 1)
            && final[i] == raw + BigEndian(sum)[(next - 1) % 4]
  }

  /** Every byte of the finished hash in terms of the password, earlier bytes of the hash, and the sum of the round
      before. The first count is the length of the password. */
  lemma MadeOf(password: seq<bv8>, i: nat, n: nat) returns (raw: bv8)
    requires password != [] && i < n
    ensures var final, w := Rounds(password, n).hash, Rounds(password, i); (
              && w.tmp == BigEndian(LastSum(password, i)) && (i == 0 ==> w.cnt == |password|)
              && RawFrom(raw, password, final, i, w.tmp, w.cnt)
              && Made(final, i, raw, w.cnt, LastSum(password, i + 1), Rounds(password, i + 1).cnt))
  {
    hide Rounds, Round, Sum, BigEndian, Made, Raw, RawFrom;
    var w, final := Rounds(password, i), Rounds(password, n).hash;
    raw := Raw(password, w);
    TmpIsLastSum(password, i);
    EarlierBytesStay(password, i, n);
    EarlierBytesStay(password, i + 1, n);
    NextRound(password, i);
    FromHash(password, w, final, raw);
    MadeIn(password, w, final);
    if i == 0 {
      NoRounds(password);
    }
  }

  lemma MadeIn(password: seq<bv8>, w: Work, final: seq<bv8>)
    requires password != [] && Fit(w) && |w.hash| < |final|
    requires final[..|w.hash| + 1] == Round(password, w).hash && final[..|w.hash|] == w.hash
    ensures Made(final, |w.hash|, Raw(password, w), w.cnt, Sum(password, w), Round(password, w).cnt)
  {
    hide Round, Sum, Raw, BigEndian, Crc, Step, Value, FirstNonzero;
    var i := |w.hash|;
    RoundMakes(password, w);
    assert final[..i + 1][i] == final[i];
    CrcSnoc(w.hash, Raw(password, w));
    SumIsStep(password, w);
  }

  lemma FromHash(password: seq<bv8>, w: Work, final: seq<bv8>, raw: bv8)
    requires password != [] && Fit(w) && raw == Raw(password, w)
    requires |w.hash| < |final| && final[..|w.hash|] == w.hash
    ensures RawFrom(raw, password, final, |w.hash|, w.tmp, w.cnt)
  {
    var i := |w.hash|;
    if i >= |password| {
      assert w.hash[i - |password|] == final[i - |password|];
      MixedIs(w.tmp[(w.cnt + 1) % 4], final[i - |password|]);
    }
  }

  lemma MixedIs(x: bv8, y: bv8)
    ensures Mixed(x, y) == (x + y + 65) & 127
  {
  }

  lemma RoundMakes(password: seq<bv8>, w: Work)
    requires password != [] && Fit(w)
    ensures var raw, sum, r := Raw(password, w), Sum(password, w), Round(password, w);
            var start := w.cnt + Value(raw); (
              && |r.hash| == |w.hash| + 1 && r.cnt > 0
              && (sum == 0 ==> r.cnt == start + 1 && r.hash[|w.hash|] == raw)
              && (sum != 0 ==> FirstNonzero(BigEndian(sum), start, r.cnt - 1)
                               && r.hash[|w.hash|] == raw + BigEndian(sum)[(r.cnt - 1) % 4]))
  {
    hide Sum, Raw, BigEndian, Skip, Crc, Step, Value;
    var sum := Sum(password, w);
    NonzeroByte(sum);
    if sum == 0 {
      AddNothing(Raw(password, w), 0);
    }
  }
}
