/** Numbers as text: what `%u` prints, what `atoi` reads, and three of them in a spam filter setting. */
module Decimal {
  import opened Bytes

  const COMMA: byte := 44

  function Digits(n: nat): (s: seq<byte>)
    ensures s != [] && forall i :: 0 <= i < |s| ==> IsDigit(s[i])
  {
    if n < 10 then [48 + n] else Digits(n / 10) + [48 + n % 10]
  }

  predicate IsDigit(c: byte) {
    48 <= c <= 57
  }

  predicate IsSpace(c: byte) {
    c == 32 || 9 <= c <= 13
  }

  function Magnitude(s: seq<byte>, sofar: nat): nat {
    if s == [] || !IsDigit(s[0]) then sofar else Magnitude(s[1..], sofar * 10 + (s[0] - 48))
  }

  function Signed(s: seq<byte>): int {
    if s != [] && s[0] == 45 then 0 - Magnitude(s[1..], 0)
    else if s != [] && s[0] == 43 then Magnitude(s[1..], 0)
    else Magnitude(s, 0)
  }

  function SkipSpace(s: seq<byte>): seq<byte> {
    if s != [] && IsSpace(s[0]) then SkipSpace(s[1..]) else s
  }

  /** `strtol` saturates at 64 bits; what `atoi` keeps of it is cut to the width of the field it is stored in. */
  function Atoi(s: seq<byte>): int {
    var v := Signed(SkipSpace(s));
    if v < -0x8000_0000_0000_0000 then -0x8000_0000_0000_0000
    else if v > 0x7fff_ffff_ffff_ffff then 0x7fff_ffff_ffff_ffff
    else v
  }

  function To8(x: int): byte {
    x % 0x100
  }

  function To16(x: int): u16 {
    x % 0x1_0000
  }

  lemma {:induction false} MagnitudeAppend(a: seq<byte>, b: seq<byte>, sofar: nat)
    requires forall i :: 0 <= i < |a| ==> IsDigit(a[i])
    ensures Magnitude(a + b, sofar) == Magnitude(b, Magnitude(a, sofar))
  {
    if a == [] {
      assert a + b == b;
    } else {
      assert (a + b)[1..] == a[1..] + b;
      MagnitudeAppend(a[1..], b, sofar * 10 + (a[0] - 48));
    }
  }

  lemma {:induction false} MagnitudeDigits(n: nat)
    ensures Magnitude(Digits(n), 0) == n
  {
    if n >= 10 {
      MagnitudeDigits(n / 10);
      MagnitudeAppend(Digits(n / 10), [48 + n % 10], 0);
      assert Magnitude([48 + n % 10], n / 10) == Magnitude([], n / 10 * 10 + n % 10);
    } else {
      assert Magnitude([48 + n], 0) == Magnitude([], 0 * 10 + n);
    }
  }

  /** Reading gives back what was printed. */
  lemma AtoiDigits(n: nat)
    requires n <= 0x7fff_ffff_ffff_ffff
    ensures Atoi(Digits(n)) == n
  {
    hide Digits, Magnitude;
    assert IsDigit(Digits(n)[0]);
    assert SkipSpace(Digits(n)) == Digits(n);
    MagnitudeDigits(n);
  }

  // ----- spam filters

  datatype Filter = Filter(action: byte, interval: u16, times: byte)

  function FilterText(f: Filter): seq<byte> {
    Digits(f.action) + [COMMA] + (Digits(f.interval) + [COMMA] + Digits(f.times))
  }

  /** The position of the first comma, or |s|. */
  function FindComma(s: seq<byte>): (i: nat)
    ensures i <= |s|
    ensures i < |s| ==> s[i] == COMMA
    ensures forall j :: 0 <= j < i ==> s[j] != COMMA
  {
    if s == [] || s[0] == COMMA then 0 else 1 + FindComma(s[1..])
  }

  /** What the setting becomes: without two commas it stays as it was. */
  function Parsed(before: Filter, value: seq<byte>): Filter {
    var i := FindComma(value);
    if i == |value| then before
    else
      var rest := value[i + 1..];
      var j := FindComma(rest);
      if j == |rest| then before
      else Filter(To8(Atoi(value[..i])), To16(Atoi(rest[..j])), To8(Atoi(rest[j + 1..])))
  }

  /** `_v3_parse_filter`: the pointers run over the text, and a comma found becomes the end of the part before it. */
  method ParseFilter(f: Filter, value: seq<byte>) returns (r: Filter, ok: bool)
    ensures r == Parsed(f, value)
    ensures ok <==>
              (FindComma(value) < |value| && FindComma(value[FindComma(value) + 1..]) < |value| - FindComma(value) - 1)
  {
    hide Atoi, FindComma;
    assert value[0..] == value;
    var i := FindFrom(value, 0);
    if i == |value| {
      return f, false;
    }
    var t := FindFrom(value, i + 1);
    if t == |value| {
      return f, false;
    }
    assert value[i + 1..][..t - i - 1] == value[i + 1..t] && value[i + 1..][t - i..] == value[t + 1..];
    r := Filter(To8(Atoi(value[..i])), To16(Atoi(value[i + 1..t])), To8(Atoi(value[t + 1..])));
    ok := true;
  }

  /** `strchr(value + from, ',')` */
  method FindFrom(value: seq<byte>, from: nat) returns (i: nat)
    requires from <= |value|
    ensures i == from + FindComma(value[from..])
  {
    i := from;
    while i < |value| && value[i] != COMMA
      invariant from <= i <= |value|
      invariant forall j :: from <= j < i ==> value[j] != COMMA
    {
      i := i + 1;
    }
    CommaUnique(value[from..], i - from);
  }

  lemma CommaUnique(s: seq<byte>, i: nat)
    requires i <= |s| && (i < |s| ==> s[i] == COMMA)
    requires forall j :: 0 <= j < i ==> s[j] != COMMA
    ensures FindComma(s) == i
  {
  }

  lemma CommaAfter(a: seq<byte>, b: seq<byte>)
    requires forall i :: 0 <= i < |a| ==> IsDigit(a[i])
    ensures FindComma(a + [COMMA] + b) == |a|
    ensures (a + [COMMA] + b)[..|a|] == a && (a + [COMMA] + b)[|a| + 1..] == b
  {
    CommaUnique(a + [COMMA] + b, |a|);
  }

  /** A printed filter is read back, whatever the setting was before. */
  lemma FilterRoundTrip(before: Filter, f: Filter)
    ensures Parsed(before, FilterText(f)) == f
  {
    hide Digits, Atoi, FindComma;
    CommaAfter(Digits(f.action), Digits(f.interval) + [COMMA] + Digits(f.times));
    CommaAfter(Digits(f.interval), Digits(f.times));
    AtoiDigits(f.action);
    AtoiDigits(f.interval);
    AtoiDigits(f.times);
  }

  // ----- what digits mean

  /** The value of a decimal number, digit by digit from the right. */
  function PlaceValue(s: seq<byte>): int {
    if s == [] then 0
    else
      var digit: int := s[|s| - 1];
      PlaceValue(s[..|s| - 1]) * 10 + (digit - 48)
  }

  /** A number is printed in base ten, without a leading zero. */
  lemma {:induction false} DigitsMean(n: nat)
    ensures PlaceValue(Digits(n)) == n
    ensures n > 0 ==> Digits(n)[0] != 48
    ensures n == 0 ==> Digits(n) == [48]
  {
    if n >= 10 {
      DigitsMean(n / 10);
      assert Digits(n)[..|Digits(n)| - 1] == Digits(n / 10);
    } else {
      assert PlaceValue([48 + n]) == PlaceValue([]) * 10 + n;
    }
  }

  lemma {:induction false} MagnitudeMeans(s: seq<byte>)
    requires forall i :: 0 <= i < |s| ==> IsDigit(s[i])
    ensures Magnitude(s, 0) == PlaceValue(s)
  {
    if s != [] {
      var n := |s| - 1;
      MagnitudeMeans(s[..n]);
      MagnitudeAppend(s[..n], s[n..], 0);
      assert s[..n] + s[n..] == s;
      assert Magnitude(s[n..], Magnitude(s[..n], 0)) == Magnitude(s[n..][1..], Magnitude(s[..n], 0) * 10 + (s[n] - 48));
    }
  }

  /** A text of digits, with or without a sign, is read as the number it shows. */
  lemma AtoiMeans(s: seq<byte>)
    requires s != [] && forall i :: 0 <= i < |s| ==> IsDigit(s[i])
    requires PlaceValue(s) <= 0x7fff_ffff_ffff_ffff
    ensures Atoi(s) == PlaceValue(s) && Atoi([45] + s) == -PlaceValue(s) && Atoi([43] + s) == PlaceValue(s)
  {
    hide Magnitude, PlaceValue;
    MagnitudeMeans(s);
    assert IsDigit(s[0]) && SkipSpace(s) == s;
    assert SkipSpace([45] + s) == [45] + s && SkipSpace([43] + s) == [43] + s;
    assert ([45] + s)[1..] == s && ([43] + s)[1..] == s;
  }

  /** White space in front does not count. */
  lemma AtoiSkips(c: byte, s: seq<byte>)
    requires c == 9 || c == 10 || c == 11 || c == 12 || c == 13 || c == 32
    ensures Atoi([c] + s) == Atoi(s)
  {
    hide Signed;
    assert ([c] + s)[1..] == s;
    assert SkipSpace([c] + s) == SkipSpace(s);
  }

  /** Reading stops at the first byte that is no digit. */
  lemma AtoiStops(s: seq<byte>, t: seq<byte>)
    requires s != [] && forall i :: 0 <= i < |s| ==> 48 <= s[i] <= 57
    requires t != [] && !(48 <= t[0] <= 57)
    ensures Atoi(s + t) == Atoi(s)
  {
    hide Magnitude;
    assert IsDigit(s[0]) && SkipSpace(s) == s && SkipSpace(s + t) == s + t;
    MagnitudeAppend(s, t, 0);
    MagnitudeAppend(s, [], 0);
    assert s + [] == s;
    NoDigits(t, Magnitude(s, 0));
  }

  lemma NoDigits(t: seq<byte>, sofar: nat)
    requires t == [] || !(48 <= t[0] <= 57)
    ensures Magnitude(t, sofar) == sofar
  {
  }

  /** A filter is printed as its three numbers with a comma, byte 44, between them. */
  lemma FilterIsPrinted(f: Filter)
    ensures FilterText(f) == Digits(f.action) + [44] + Digits(f.interval) + [44] + Digits(f.times)
  {
  }
}
