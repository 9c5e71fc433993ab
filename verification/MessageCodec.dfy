/**
 * Records inside messages: a fixed head, strings with a 16 bit length, and arrays with a 16 bit count. The code reads
 * without looking at the end of the buffer; a read past it is `None` here.
 */
module MessageCodec {
  import opened Bytes
  import opened Options

  /** How a kind of record is laid out. */
  datatype Shape = Shape(head: nat, strings: nat, arrays: nat)

  const USER := Shape(8, 5, 0)
  const CHANNEL := Shape(48, 3, 0)
  const RANK := Shape(4, 2, 0)
  const ACCOUNT := Shape(104, 4, 2)

  datatype Record = Record(head: seq<byte>, strings: seq<seq<byte>>, arrays: seq<seq<u16>>)

  /** The strings are C strings, and the counts are those of the shape. */
  predicate Has(shape: Shape, r: Record) {
    && |r.head| == shape.head && |r.strings| == shape.strings && |r.arrays| == shape.arrays
    && (forall i :: 0 <= i < |r.strings| ==> 0 !in r.strings[i])
  }

  /** No length runs over 16 bits once the reader has added its own two bytes. */
  predicate Short(r: Record) {
    && (forall i :: 0 <= i < |r.strings| ==> |r.strings[i]| <= 65533)
    && (forall i :: 0 <= i < |r.arrays| ==> |r.arrays[i]| <= 32766)
  }

  // ----- writing

  /** The length is cut to 16 bits, and only that many bytes are copied. */
  function PutString(s: seq<byte>): seq<byte> {
    Put16(|s| % 0x1_0000) + s[..|s| % 0x1_0000]
  }

  function Put16s(a: seq<u16>): (r: seq<byte>)
    ensures |r| == 2 * |a|
  {
    if a == [] then [] else Put16(a[0]) + Put16s(a[1..])
  }

  function PutArray(a: seq<u16>): seq<byte> {
    Put16(|a| % 0x1_0000) + Put16s(a[..|a| % 0x1_0000])
  }

  function PutStrings(ss: seq<seq<byte>>): seq<byte> {
    if ss == [] then [] else PutString(ss[0]) + PutStrings(ss[1..])
  }

  function PutArrays(aa: seq<seq<u16>>): seq<byte> {
    if aa == [] then [] else PutArray(aa[0]) + PutArrays(aa[1..])
  }

  function PutRecord(r: Record): seq<byte> {
    r.head + (PutStrings(r.strings) + PutArrays(r.arrays))
  }

  function PutRecords(rs: seq<Record>): seq<byte> {
    if rs == [] then [] else PutRecord(rs[0]) + PutRecords(rs[1..])
  }

  // ----- reading: a value and the offset after it

  /** The two bytes of the length are added in 16 bits. */
  function GetString(data: seq<byte>, off: nat): Option<(seq<byte>, nat)> {
    if off + 2 > |data| then None
    else
      var n := Get16(data[off..off + 2]);
      if off + 2 + n > |data| then None
      else Some((CStr(data[off + 2..off + 2 + n]), off + (n + 2) % 0x1_0000))
  }

  function Get16s(s: seq<byte>): (a: seq<u16>)
    requires |s| % 2 == 0
    ensures |s| == 2 * |a|
  {
    if s == [] then [] else [Get16(s[..2])] + Get16s(s[2..])
  }

  /** The byte length is doubled and increased in 16 bits, and the count is computed back from it. */
  function GetArray(data: seq<byte>, off: nat): Option<(seq<u16>, nat)> {
    if off + 2 > |data| then None
    else
      var n := Get16(data[off..off + 2]);
      if off + 2 + 2 * n > |data| then None
      else
        var advance := (n * 2 + 2) % 0x1_0000;
        var all := Get16s(data[off + 2..off + 2 + 2 * n]);
        Some((if advance < 2 then [] else all[..(advance - 2) / 2], off + advance))
  }

  function GetStrings(data: seq<byte>, off: nat, k: nat): Option<(seq<seq<byte>>, nat)>
    decreases k
  {
    if k == 0 then Some(([], off))
    else
      var first := GetString(data, off);
      if first.None? then None
      else
        var rest := GetStrings(data, first.value.1, k - 1);
        if rest.None? then None else Some(([first.value.0] + rest.value.0, rest.value.1))
  }

  function GetArrays(data: seq<byte>, off: nat, k: nat): Option<(seq<seq<u16>>, nat)>
    decreases k
  {
    if k == 0 then Some(([], off))
    else
      var first := GetArray(data, off);
      if first.None? then None
      else
        var rest := GetArrays(data, first.value.1, k - 1);
        if rest.None? then None else Some(([first.value.0] + rest.value.0, rest.value.1))
  }

  function GetRecord(shape: Shape, data: seq<byte>, off: nat): Option<(Record, nat)> {
    if off + shape.head > |data| then None
    else
      var ss := GetStrings(data, off + shape.head, shape.strings);
      if ss.None? then None
      else
        var aa := GetArrays(data, ss.value.1, shape.arrays);
        if aa.None? then None
        else Some((Record(data[off..off + shape.head], ss.value.0, aa.value.0), aa.value.1))
  }

  function GetRecords(shape: Shape, data: seq<byte>, off: nat, count: nat): Option<(seq<Record>, nat)>
    decreases count
  {
    if count == 0 then Some(([], off))
    else
      var first := GetRecord(shape, data, off);
      if first.None? then None
      else
        var rest := GetRecords(shape, data, first.value.1, count - 1);
        if rest.None? then None else Some(([first.value.0] + rest.value.0, rest.value.1))
  }

  // ----- one field

  /** Where a written string stands, reading gives it back and stops behind it exactly up to 65533 bytes. */
  lemma StringTripIff(data: seq<byte>, off: nat, s: seq<byte>)
    requires 0 !in s && At(data, off, PutString(s))
    ensures GetString(data, off) == Some((s, off + |PutString(s)|)) <==> |s| <= 65533
  {
    var n := |s| % 0x1_0000;
    AtParts(data, off, Put16(n), s[..n]);
    Get16Put16(n);
    assert data[off..off + 2] == Put16(n);
    assert data[off + 2..off + 2 + n] == s[..n];
    CStrWhole(s[..n]);
    assert GetString(data, off) == Some((s[..n], off + (n + 2) % 0x1_0000));
    if |s| < 0x1_0000 {
      assert s[..n] == s;
    } else {
      assert |s[..n]| != |s|;
    }
  }

  lemma {:induction false} WordsTrip(a: seq<u16>)
    ensures Get16s(Put16s(a)) == a
  {
    if a != [] {
      var s := Put16s(a);
      assert s[..2] == Put16(a[0]) && s[2..] == Put16s(a[1..]);
      Get16Put16(a[0]);
      WordsTrip(a[1..]);
    }
  }

  /** The same for an array: at most 32766 elements. */
  lemma ArrayTripIff(data: seq<byte>, off: nat, a: seq<u16>)
    requires At(data, off, PutArray(a))
    ensures GetArray(data, off) == Some((a, off + |PutArray(a)|)) <==> |a| <= 32766
  {
    hide Get16s, Put16s;
    var n := |a| % 0x1_0000;
    AtParts(data, off, Put16(n), Put16s(a[..n]));
    Get16Put16(n);
    assert data[off..off + 2] == Put16(n);
    assert data[off + 2..off + 2 + 2 * n] == Put16s(a[..n]);
    WordsTrip(a[..n]);
    var advance := (n * 2 + 2) % 0x1_0000;
    assert GetArray(data, off) == Some((if advance < 2 then [] else a[..n][..(advance - 2) / 2], off + advance));
    if |a| <= 32766 {
      assert a[..n][..(advance - 2) / 2] == a;
    }
  }

  // ----- whole records

  lemma {:induction false} StringsTrip(data: seq<byte>, off: nat, ss: seq<seq<byte>>)
    requires At(data, off, PutStrings(ss))
    requires forall i :: 0 <= i < |ss| ==> 0 !in ss[i] && |ss[i]| <= 65533
    ensures GetStrings(data, off, |ss|) == Some((ss, off + |PutStrings(ss)|))
    decreases |ss|
  {
    hide GetString, PutString, At;
    if ss != [] {
      AtParts(data, off, PutString(ss[0]), PutStrings(ss[1..]));
      StringTripIff(data, off, ss[0]);
      StringsTrip(data, off + |PutString(ss[0])|, ss[1..]);
      assert [ss[0]] + ss[1..] == ss;
    }
  }

  lemma {:induction false} ArraysTrip(data: seq<byte>, off: nat, aa: seq<seq<u16>>)
    requires At(data, off, PutArrays(aa))
    requires forall i :: 0 <= i < |aa| ==> |aa[i]| <= 32766
    ensures GetArrays(data, off, |aa|) == Some((aa, off + |PutArrays(aa)|))
    decreases |aa|
  {
    hide GetArray, PutArray, At;
    if aa != [] {
      AtParts(data, off, PutArray(aa[0]), PutArrays(aa[1..]));
      ArrayTripIff(data, off, aa[0]);
      ArraysTrip(data, off + |PutArray(aa[0])|, aa[1..]);
      assert [aa[0]] + aa[1..] == aa;
    }
  }

  lemma RecordTrip(shape: Shape, data: seq<byte>, off: nat, r: Record)
    requires Has(shape, r) && Short(r) && At(data, off, PutRecord(r))
    ensures GetRecord(shape, data, off) == Some((r, off + |PutRecord(r)|))
  {
    hide PutStrings, PutArrays, GetStrings, GetArrays;
    var tail := PutStrings(r.strings) + PutArrays(r.arrays);
    AtParts(data, off, r.head, tail);
    AtParts(data, off + |r.head|, PutStrings(r.strings), PutArrays(r.arrays));
    StringsTrip(data, off + |r.head|, r.strings);
    ArraysTrip(data, off + |r.head| + |PutStrings(r.strings)|, r.arrays);
  }

  /** A list of records of any kind, written anywhere, is read back, and the reader stops at the byte after it. */
  lemma {:induction false} RecordsTrip(shape: Shape, data: seq<byte>, off: nat, rs: seq<Record>)
    requires forall i :: 0 <= i < |rs| ==> Has(shape, rs[i]) && Short(rs[i])
    requires At(data, off, PutRecords(rs))
    ensures GetRecords(shape, data, off, |rs|) == Some((rs, off + |PutRecords(rs)|))
    decreases |rs|
  {
    hide GetRecord, PutRecord, At, Has, Short;
    if rs != [] {
      AtParts(data, off, PutRecord(rs[0]), PutRecords(rs[1..]));
      RecordTrip(shape, data, off, rs[0]);
      RecordsTrip(shape, data, off + |PutRecord(rs[0])|, rs[1..]);
      assert [rs[0]] + rs[1..] == rs;
    }
  }
}
