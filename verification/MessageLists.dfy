/** The messages that carry lists of users, channels and accounts, their lengths, and the loops that build and read
    them. */
module MessageLists {
  import opened Bytes
  import opened Options
  import opened MessageCodec

  // ----- lengths

  function StringBytes(ss: seq<seq<byte>>): nat {
    if ss == [] then 0 else |ss[0]| + 2 + StringBytes(ss[1..])
  }

  function ArrayBytes(aa: seq<seq<u16>>): nat {
    if aa == [] then 0 else 2 * |aa[0]| + 2 + ArrayBytes(aa[1..])
  }

  /** The length the message builders compute for a record before writing it. */
  function Announced(r: Record): nat {
    |r.head| + StringBytes(r.strings) + ArrayBytes(r.arrays)
  }

  lemma {:induction false} StringBytesWritten(ss: seq<seq<byte>>)
    ensures |PutStrings(ss)| <= StringBytes(ss)
    ensures |PutStrings(ss)| == StringBytes(ss) <==> forall i :: 0 <= i < |ss| ==> |ss[i]| < 0x1_0000
  {
    if ss != [] {
      StringBytesWritten(ss[1..]);
      assert |PutString(ss[0])| == |ss[0]| % 0x1_0000 + 2;
      assert |ss[0]| % 0x1_0000 <= |ss[0]|;
    }
  }

  lemma {:induction false} ArrayBytesWritten(aa: seq<seq<u16>>)
    ensures |PutArrays(aa)| <= ArrayBytes(aa)
    ensures |PutArrays(aa)| == ArrayBytes(aa) <==> forall i :: 0 <= i < |aa| ==> |aa[i]| < 0x1_0000
  {
    hide Put16s;
    if aa != [] {
      ArrayBytesWritten(aa[1..]);
      assert |PutArray(aa[0])| == 2 * (|aa[0]| % 0x1_0000) + 2;
      assert |aa[0]| % 0x1_0000 <= |aa[0]|;
    }
  }

  /** The announced length is the number of bytes written exactly when no length of the record runs over 16 bits. */
  lemma AnnouncedIff(r: Record)
    ensures |PutRecord(r)| <= Announced(r)
    ensures |PutRecord(r)| == Announced(r)
            <==> (forall i :: 0 <= i < |r.strings| ==> |r.strings[i]| < 0x1_0000)
                 && (forall i :: 0 <= i < |r.arrays| ==> |r.arrays[i]| < 0x1_0000)
  {
    StringBytesWritten(r.strings);
    ArrayBytesWritten(r.arrays);
  }

  // ----- messages

  /** Heads are structs copied as they lie in memory, lowest byte first. */
  function Low16(x: u16): seq<byte> {
    [x % 0x100, x / 0x100]
  }

  function Low32(x: u32): seq<byte> {
    Low16(x % 0x1_0000) + Low16(x / 0x1_0000)
  }

  function FromLow16(s: seq<byte>): u16
    requires |s| == 2
  {
    var hi: int := s[1];
    hi * 0x100 + s[0]
  }

  function FromLow32(s: seq<byte>): u32
    requires |s| == 4
  {
    var hi: int := FromLow16(s[2..]);
    hi * 0x1_0000 + FromLow16(s[..2])
  }

  function UsersMessage(subtype: u16, users: seq<Record>): seq<byte>
    requires |users| < 0x1_0000
  {
    Low32(0x5d) + Low16(subtype) + Low16(|users|) + PutRecords(users)
  }

  function ReadUsers(data: seq<byte>): Option<(seq<Record>, nat)> {
    if |data| < 8 then None else GetRecords(USER, data, 8, FromLow16(data[6..8]))
  }

  function ChannelsMessage(channels: seq<Record>): seq<byte>
    requires |channels| < 0x1_0000_0000
  {
    Low32(0x60) + Low32(|channels|) + PutRecords(channels)
  }

  function ReadChannels(data: seq<byte>): Option<(seq<Record>, nat)> {
    if |data| < 8 then None else GetRecords(CHANNEL, data, 8, FromLow32(data[4..8]))
  }

  /** The fields of the head between the type and the count, and after the count, are given as bytes. */
  function AccountsMessage(before: seq<byte>, accounts: seq<Record>, after: seq<byte>): seq<byte>
    requires |before| == 6 && |accounts| < 0x1_0000 && |after| == 8
  {
    Low32(0x4a) + before + Low16(|accounts|) + after + PutRecords(accounts)
  }

  function ReadAccounts(data: seq<byte>): Option<(seq<Record>, nat)> {
    if |data| < 20 then None else GetRecords(ACCOUNT, data, 20, FromLow16(data[10..12]))
  }

  lemma LowTrip16(x: u16)
    ensures FromLow16(Low16(x)) == x
  {
  }

  lemma LowTrip32(x: u32)
    ensures |Low32(x)| == 4 && FromLow32(Low32(x)) == x
  {
    LowTrip16(x % 0x1_0000);
    LowTrip16(x / 0x1_0000);
    assert Low32(x)[..2] == Low16(x % 0x1_0000) && Low32(x)[2..] == Low16(x / 0x1_0000);
  }

  predicate Fits(shape: Shape, rs: seq<Record>) {
    forall i :: 0 <= i < |rs| ==> Has(shape, rs[i]) && Short(rs[i])
  }

  /** Every user list comes back, and exactly its bytes are read, whatever follows the message. */
  lemma UsersTrip(subtype: u16, users: seq<Record>, rest: seq<byte>)
    requires |users| < 0x1_0000 && Fits(USER, users)
    ensures ReadUsers(UsersMessage(subtype, users) + rest) == Some((users, |UsersMessage(subtype, users)|))
  {
    hide PutRecords, GetRecords;
    var head := Low32(0x5d) + Low16(subtype) + Low16(|users|);
    var data := UsersMessage(subtype, users) + rest;
    assert data == head + PutRecords(users) + rest;
    AtSeam(head, PutRecords(users), rest);
    assert data[6..8] == Low16(|users|);
    LowTrip16(|users|);
    RecordsTrip(USER, data, 8, users);
  }

  lemma ChannelsTrip(channels: seq<Record>, rest: seq<byte>)
    requires |channels| < 0x1_0000_0000 && Fits(CHANNEL, channels)
    ensures ReadChannels(ChannelsMessage(channels) + rest) == Some((channels, |ChannelsMessage(channels)|))
  {
    hide PutRecords, GetRecords, Low32;
    LowTrip32(0x60);
    LowTrip32(|channels|);
    var head := Low32(0x60) + Low32(|channels|);
    var data := ChannelsMessage(channels) + rest;
    assert data == head + PutRecords(channels) + rest;
    AtSeam(head, PutRecords(channels), rest);
    assert data[4..8] == Low32(|channels|);
    RecordsTrip(CHANNEL, data, 8, channels);
  }

  lemma AccountsTrip(before: seq<byte>, accounts: seq<Record>, after: seq<byte>, rest: seq<byte>)
    requires |before| == 6 && |accounts| < 0x1_0000 && |after| == 8 && Fits(ACCOUNT, accounts)
    ensures ReadAccounts(AccountsMessage(before, accounts, after) + rest)
            == Some((accounts, |AccountsMessage(before, accounts, after)|))
  {
    hide PutRecords, GetRecords, Low32;
    LowTrip32(0x4a);
    var head := Low32(0x4a) + before + Low16(|accounts|) + after;
    var data := AccountsMessage(before, accounts, after) + rest;
    assert data == head + PutRecords(accounts) + rest;
    AtSeam(head, PutRecords(accounts), rest);
    assert data[10..12] == Low16(|accounts|);
    LowTrip16(|accounts|);
    RecordsTrip(ACCOUNT, data, 20, accounts);
  }

  /** A user as the modify event builds it: no names, and three texts from 128 byte fields. */
  lemma ApiUserFits(head: seq<byte>, comment: seq<byte>, integration: seq<byte>, url: seq<byte>)
    requires |head| == 8 && |comment| <= 127 && |integration| <= 127 && |url| <= 127
    ensures |PutRecord(Record(head, [[], [], comment, integration, url], []))| <= 512
  {
    var r := Record(head, [[], [], comment, integration, url], []);
    var ss := r.strings;
    AnnouncedIff(r);
    assert ss[1..] == [[], comment, integration, url];
    assert [[], comment, integration, url][1..] == [comment, integration, url];
    assert [comment, integration, url][1..] == [integration, url] && [integration, url][1..] == [url];
    assert StringBytes([url]) == |url| + 2;
    assert StringBytes([integration, url]) == |integration| + 2 + StringBytes([url]);
    assert StringBytes([comment, integration, url]) == |comment| + 2 + StringBytes([integration, url]);
    assert StringBytes([[], comment, integration, url]) == 2 + StringBytes([comment, integration, url]);
    assert ArrayBytes([]) == 0;
  }

  // ----- the code

  datatype User = User(head: seq<byte>, name: seq<byte>, phonetic: seq<byte>, comment: seq<byte>,
                       integration: seq<byte>, url: seq<byte>)

  function AsRecord(u: User): Record {
    Record(u.head, [u.name, u.phonetic, u.comment, u.integration, u.url], [])
  }

  function AsRecords(users: seq<User>): (rs: seq<Record>)
    ensures |rs| == |users|
    ensures forall i :: 0 <= i < |rs| ==> rs[i] == AsRecord(users[i])
  {
    seq(|users|, i requires 0 <= i < |users| => AsRecord(users[i]))
  }

  lemma WriteAtTwice(file: seq<byte>, at: nat, a: seq<byte>, b: seq<byte>)
    requires at + |a| + |b| <= |file|
    ensures |WriteAt(file, at, a)| == |file|
    ensures WriteAt(WriteAt(file, at, a), at + |a|, b) == WriteAt(file, at, a + b)
  {
  }

  /** `memcpy` into the buffer. */
  method Copy(buf: array<byte>, at: nat, bytes: seq<byte>) returns (n: nat)
    requires at + |bytes| <= buf.Length
    modifies buf
    ensures n == |bytes| && buf[..] == WriteAt(old(buf[..]), at, bytes)
  {
    forall i | 0 <= i < |bytes| {
      buf[at + i] := bytes[i];
    }
    n := |bytes|;
    assert buf[..] == buf[..at] + buf[at..at + n] + buf[at + n..];
  }

  method PutStringAt(buf: array<byte>, at: nat, s: seq<byte>) returns (n: nat)
    requires at + |PutString(s)| <= buf.Length
    modifies buf
    ensures n == |PutString(s)|
    ensures buf[..] == WriteAt(old(buf[..]), at, PutString(s))
  {
    hide Put16, WriteAt;
    var len := |s| % 0x1_0000;
    n := Copy(buf, at, Put16(len));
    if len != 0 {
      WriteAtTwice(old(buf[..]), at, Put16(len), s[..len]);
      var k := Copy(buf, at + 2, s[..len]);
      n := n + k;
    } else {
      assert Put16(len) + s[..len] == Put16(len);
    }
  }

  lemma UserParts(u: User)
    ensures PutRecord(AsRecord(u))
            == u.head + PutString(u.name) + PutString(u.phonetic) + PutString(u.comment) + PutString(u.integration)
               + PutString(u.url)
  {
    hide PutString;
    var ss := AsRecord(u).strings;
    assert PutArrays([]) == [];
    var a, b, c, d, e := PutString(u.name), PutString(u.phonetic), PutString(u.comment), PutString(u.integration),
                         PutString(u.url);
    StringsFrom(ss, 0);
    StringsFrom(ss, 1);
    StringsFrom(ss, 2);
    StringsFrom(ss, 3);
    StringsFrom(ss, 4);
    assert ss[0..] == ss && PutStrings(ss[5..]) == [];
    assert PutStrings(ss) == a + (b + (c + (d + (e + []))));
    Regroup(u.head, a, b, c, d, e);
  }

  lemma StringsFrom(ss: seq<seq<byte>>, i: nat)
    requires i < |ss|
    ensures PutStrings(ss[i..]) == PutString(ss[i]) + PutStrings(ss[i + 1..])
  {
    assert ss[i..][1..] == ss[i + 1..];
  }

  lemma Regroup<T>(h: seq<T>, a: seq<T>, b: seq<T>, c: seq<T>, d: seq<T>, e: seq<T>)
    ensures h + ((a + (b + (c + (d + (e + []))))) + []) == h + a + b + c + d + e
  {
  }

  method PutUser(buf: array<byte>, at: nat, u: User) returns (n: nat)
    requires |u.head| == 8 && at + |PutRecord(AsRecord(u))| <= buf.Length
    modifies buf
    ensures n == |PutRecord(AsRecord(u))|
    ensures buf[..] == WriteAt(old(buf[..]), at, PutRecord(AsRecord(u)))
  {
    hide PutString, PutRecord, AsRecord, WriteAt;
    UserParts(u);
    n := Copy(buf, at, u.head);
    ghost var bytes := u.head;
    n := NextString(buf, at, n, u.name, old(buf[..]), bytes);
    bytes := bytes + PutString(u.name);
    n := NextString(buf, at, n, u.phonetic, old(buf[..]), bytes);
    bytes := bytes + PutString(u.phonetic);
    n := NextString(buf, at, n, u.comment, old(buf[..]), bytes);
    bytes := bytes + PutString(u.comment);
    n := NextString(buf, at, n, u.integration, old(buf[..]), bytes);
    bytes := bytes + PutString(u.integration);
    n := NextString(buf, at, n, u.url, old(buf[..]), bytes);
  }

  /** One more string behind the bytes already written from `at` on. */
  method NextString(buf: array<byte>, at: nat, n: nat, s: seq<byte>, ghost was: seq<byte>, ghost bytes: seq<byte>)
    returns (m: nat)
    requires n == |bytes| && at + n + |PutString(s)| <= buf.Length == |was|
    requires buf[..] == WriteAt(was, at, bytes)
    modifies buf
    ensures m == |bytes + PutString(s)|
    ensures buf[..] == WriteAt(was, at, bytes + PutString(s))
  {
    hide PutString, WriteAt;
    var k := PutStringAt(buf, at + n, s);
    WriteAtTwice(was, at, bytes, PutString(s));
    m := n + k;
  }

  lemma {:induction false} PutRecordsSnoc(rs: seq<Record>, r: Record)
    ensures PutRecords(rs + [r]) == PutRecords(rs) + PutRecord(r)
  {
    hide PutRecord;
    if rs == [] {
      assert rs + [r] == [r] && PutRecords([r]) == PutRecord(r) + PutRecords([]);
    } else {
      PutRecordsSnoc(rs[1..], r);
      assert (rs + [r])[1..] == rs[1..] + [r];
    }
  }

  lemma WrittenNext(file: seq<byte>, bytes: seq<byte>, more: seq<byte>)
    requires bytes <= file && |bytes| + |more| <= |file|
    ensures |WriteAt(file, |bytes|, more)| == |file| && bytes + more <= WriteAt(file, |bytes|, more)
  {
  }

  /** `_v3_put_0x5d`: the buffer has 512 bytes for each user; the length of the message is 16 bits wide. */
  method PutUsers(subtype: u16, users: seq<User>) returns (data: array<byte>, len: u16)
    requires |users| < 0x1_0000
    requires forall i :: 0 <= i < |users| ==> |users[i].head| == 8 && |PutRecord(AsRecord(users[i]))| <= 512
    ensures (
      var message := UsersMessage(subtype, AsRecords(users));
      len == |message| % 0x1_0000 && message <= data[..] && |message| <= 8 + 512 * |users|)
  {
    hide PutRecord, AsRecord, WriteAt, PutRecords, AsRecords;
    data := new byte[512 * |users| + 24](_ => 0);
    ghost var rs := AsRecords(users);
    var at := Copy(data, 0, Low32(0x5d) + Low16(subtype) + Low16(|users|));
    ghost var head := Low32(0x5d) + Low16(subtype) + Low16(|users|);
    ghost var bytes := head;
    assert head <= data[..] by {
      WrittenFirst(512 * |users| + 24, head);
    }
    assert rs[..0] == [] && PutRecords([]) == [] && head + [] == head by {
      NoRecords();
    }
    var ctr := 0;
    while ctr < |users|
      invariant 0 <= ctr <= |users| && at == |bytes| <= 8 + 512 * ctr
      invariant data.Length == 512 * |users| + 24 && fresh(data)
      invariant bytes <= data[..] && bytes == head + PutRecords(rs[..ctr])
    {
      ghost var more := PutRecord(AsRecord(users[ctr]));
      WrittenNext(data[..], bytes, more);
      var n := PutUser(data, at, users[ctr]);
      PutRecordsSnoc(rs[..ctr], AsRecord(users[ctr]));
      assert rs[..ctr + 1] == rs[..ctr] + [AsRecord(users[ctr])];
      assert bytes + more == head + PutRecords(rs[..ctr + 1]);
      bytes := bytes + more;
      at := at + n;
      ctr := ctr + 1;
    }
    assert rs[..|users|] == rs;
    len := at % 0x1_0000;
  }

  lemma NoRecords()
    ensures PutRecords([]) == []
  {
  }

  lemma WrittenFirst(n: nat, head: seq<byte>)
    requires |head| <= n
    ensures forall file: seq<byte> :: |file| == n ==> head <= WriteAt(file, 0, head)
  {
  }

  // ----- reading

  method GetStringAt(data: seq<byte>, off: nat) returns (s: seq<byte>, len: u16)
    requires GetString(data, off).Some?
    ensures GetString(data, off) == Some((s, off + len))
  {
    var size: int := Get16(data[off..off + 2]);
    s := CStr(data[off + 2..off + 2 + size]);
    len := (size + 2) % 0x1_0000;
  }

  lemma FirstString(data: seq<byte>, off: nat, k: nat)
    requires 0 < k && GetStrings(data, off, k).Some?
    ensures GetString(data, off).Some?
    ensures (
      var first := GetString(data, off).value;
      var rest := GetStrings(data, first.1, k - 1);
      rest.Some? && GetStrings(data, off, k).value == ([first.0] + rest.value.0, rest.value.1))
  {
  }

  lemma OnlyStrings(data: seq<byte>, start: nat)
    requires GetRecord(USER, data, start).Some?
    ensures start + 8 <= |data| && GetStrings(data, start + 8, 5).Some?
    ensures (
      var ss := GetStrings(data, start + 8, 5).value;
      GetRecord(USER, data, start).value == (Record(data[start..start + 8], ss.0, []), ss.1))
  {
  }

  /** `_v3_get_msg_user` returns the distance from the start to where it stopped. */
  method GetUser(data: seq<byte>, start: nat) returns (u: User, n: int)
    requires GetRecord(USER, data, start).Some?
    ensures start + n >= 0 && GetRecord(USER, data, start) == Some((AsRecord(u), start + n))
  {
    hide GetString, GetStrings, GetRecord;
    OnlyStrings(data, start);
    var offset := start + 8;
    var head := data[start..offset];
    var name, phonetic, comment, integration, url, len;
    FirstString(data, offset, 5);
    name, len := GetStringAt(data, offset);
    offset := offset + len;
    FirstString(data, offset, 4);
    phonetic, len := GetStringAt(data, offset);
    offset := offset + len;
    FirstString(data, offset, 3);
    comment, len := GetStringAt(data, offset);
    offset := offset + len;
    FirstString(data, offset, 2);
    integration, len := GetStringAt(data, offset);
    offset := offset + len;
    FirstString(data, offset, 1);
    url, len := GetStringAt(data, offset);
    offset := offset + len;
    NoString(data, offset);
    u := User(head, name, phonetic, comment, integration, url);
    assert [name] + ([phonetic] + ([comment] + ([integration] + ([url] + [])))) == AsRecord(u).strings;
    n := offset - start;
  }

  lemma NoString(data: seq<byte>, off: nat)
    ensures GetStrings(data, off, 0) == Some(([], off))
  {
  }

  lemma FirstRecord(shape: Shape, data: seq<byte>, off: nat, k: nat)
    requires 0 < k && GetRecords(shape, data, off, k).Some?
    ensures GetRecord(shape, data, off).Some?
    ensures (
      var first := GetRecord(shape, data, off).value;
      var rest := GetRecords(shape, data, first.1, k - 1);
      rest.Some? && GetRecords(shape, data, off, k).value == ([first.0] + rest.value.0, rest.value.1))
  {
    hide GetRecord;
  }

  /** `_v3_get_0x5d`, on a message that holds the users it counts. */
  method GetUsers(data: seq<byte>) returns (users: seq<User>)
    requires ReadUsers(data).Some?
    ensures AsRecords(users) == ReadUsers(data).value.0
  {
    hide GetRecord, GetRecords;
    var count := FromLow16(data[6..8]);
    users := [];
    var ctr: nat, offset: nat := 0, 8;
    ghost var all := ReadUsers(data).value.0;
    ghost var rest := all;
    assert all == AsRecords(users) + rest;
    while ctr < count
      invariant ctr <= count
      invariant GetRecords(USER, data, offset, count - ctr).Some?
      invariant rest == GetRecords(USER, data, offset, count - ctr).value.0
      invariant all == AsRecords(users) + rest
    {
      FirstRecord(USER, data, offset, count - ctr);
      var u, n := GetUser(data, offset);
      assert AsRecords(users + [u]) == AsRecords(users) + [AsRecord(u)];
      offset := offset + n;
      ctr := ctr + 1;
      assert rest == [AsRecord(u)] + GetRecords(USER, data, offset, count - ctr).value.0;
      rest := rest[1..];
      users := users + [u];
    }
    NoRecord(USER, data, offset);
  }

  lemma NoRecord(shape: Shape, data: seq<byte>, off: nat)
    ensures GetRecords(shape, data, off, 0) == Some(([], off))
  {
  }
}
