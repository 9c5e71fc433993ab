/** The records of channels, ranks and accounts field by field: what the code that builds and reads them does. */
module MessageRecords {
  import opened Bytes
  import opened Options
  import opened MessageCodec
  import opened MessageLists

  /** Heads hold the fields of fixed size, as bytes. */
  datatype Channel = Channel(head: seq<byte>, name: seq<byte>, phonetic: seq<byte>, comment: seq<byte>)

  datatype Rank = Rank(head: seq<byte>, name: seq<byte>, description: seq<byte>)

  datatype Account = Account(head: seq<byte>, username: seq<byte>, owner: seq<byte>, notes: seq<byte>,
                             lockReason: seq<byte>, chanAdmin: seq<u16>, chanAuth: seq<u16>)

  function ChannelRecord(c: Channel): Record {
    Record(c.head, [c.name, c.phonetic, c.comment], [])
  }

  function ChannelRecords(channels: seq<Channel>): (rs: seq<Record>)
    ensures |rs| == |channels|
    ensures forall i :: 0 <= i < |rs| ==> rs[i] == ChannelRecord(channels[i])
  {
    seq(|channels|, i requires 0 <= i < |channels| => ChannelRecord(channels[i]))
  }

  function RankRecord(k: Rank): Record {
    Record(k.head, [k.name, k.description], [])
  }

  function AccountRecord(a: Account): Record {
    Record(a.head, [a.username, a.owner, a.notes, a.lockReason], [a.chanAdmin, a.chanAuth])
  }

  // ----- the bytes

  /** A string stands as its length in two bytes, the higher one first, and its bytes. */
  lemma StringStands(s: seq<byte>)
    requires |s| < 0x1_0000
    ensures PutString(s) == [|s| / 256, |s| % 256] + s
  {
    assert s[..|s|] == s;
  }

  lemma {:induction false} ElementStands(a: seq<u16>, i: nat)
    requires i < |a|
    ensures Put16s(a)[2 * i..2 * i + 2] == [a[i] / 256, a[i] % 256]
  {
    if i > 0 {
      ElementStands(a[1..], i - 1);
      assert Put16s(a)[2 * i..2 * i + 2] == Put16s(a[1..])[2 * (i - 1)..2 * (i - 1) + 2];
    }
  }

  /** An array stands as its count and its elements, each in two bytes, the higher one first. */
  lemma ArrayStands(a: seq<u16>)
    requires |a| < 0x1_0000
    ensures |PutArray(a)| == 2 + 2 * |a|
    ensures PutArray(a)[0] == |a| / 256 && PutArray(a)[1] == |a| % 256 && PutArray(a)[2..] == Put16s(a)
  {
    hide Put16s;
    var n := |a|;
    assert n % 0x1_0000 == n && a[..n] == a;
    assert PutArray(a) == Put16(n) + Put16s(a);
  }

  lemma LowBytes(x: u32)
    ensures Low32(x) == [x % 256, x / 256 % 256, x / 0x1_0000 % 256, x / 0x1_0000 / 256]
    ensures x < 0x1_0000 ==> Low16(x) == [x % 256, x / 256]
  {
    var lo, hi := x % 0x1_0000, x / 0x1_0000;
    assert lo % 256 == x % 256 && lo / 256 == x / 256 % 256;
    assert Low32(x) == [lo % 0x100, lo / 0x100] + [hi % 0x100, hi / 0x100];
  }

  /** The heads of the list messages, lowest bytes first: the type, and the count. */
  lemma UsersHead(subtype: u16, users: seq<Record>)
    requires |users| < 0x1_0000
    ensures UsersMessage(subtype, users)
            == [0x5d, 0, 0, 0, subtype % 256, subtype / 256, |users| % 256, |users| / 256] + PutRecords(users)
  {
    hide PutRecords, Low32, Low16;
    LowBytes(0x5d);
    LowBytes(subtype);
    LowBytes(|users|);
  }

  lemma ChannelsHead(channels: seq<Record>)
    requires |channels| < 0x1_0000_0000
    ensures (
      var n := |channels|;
      ChannelsMessage(channels)
      == [0x60, 0, 0, 0, n % 256, n / 256 % 256, n / 0x1_0000 % 256, n / 0x1_0000 / 256] + PutRecords(channels))
  {
    hide PutRecords, Low32;
    LowBytes(0x60);
    LowBytes(|channels|);
  }

  lemma AccountsHead(before: seq<byte>, accounts: seq<Record>, after: seq<byte>)
    requires |before| == 6 && |accounts| < 0x1_0000 && |after| == 8
    ensures var data := AccountsMessage(before, accounts, after); (
              && |data| >= 20 && data[..4] == [0x4a, 0, 0, 0] && data[4..10] == before
              && data[10] == |accounts| % 256 && data[11] == |accounts| / 256
              && data[12..20] == after && data[20..] == PutRecords(accounts))
  {
    hide PutRecords, Low32, Low16;
    LowBytes(0x4a);
    var n := |accounts|;
    LowBytes(n);
    var low := Low16(n);
    assert |low| == 2 && low[0] == n % 256 && low[1] == n / 256;
    assert AccountsMessage(before, accounts, after) == Low32(0x4a) + before + low + after + PutRecords(accounts);
  }

  lemma ChannelParts(c: Channel)
    ensures PutRecord(ChannelRecord(c)) == c.head + PutString(c.name) + PutString(c.phonetic) + PutString(c.comment)
  {
    hide PutString;
    var ss := ChannelRecord(c).strings;
    StringsFrom(ss, 0);
    StringsFrom(ss, 1);
    StringsFrom(ss, 2);
    assert ss[0..] == ss && PutStrings(ss[3..]) == [] && PutArrays([]) == [];
  }

  lemma RankParts(k: Rank)
    ensures PutRecord(RankRecord(k)) == k.head + PutString(k.name) + PutString(k.description)
  {
    hide PutString;
    var ss := RankRecord(k).strings;
    StringsFrom(ss, 0);
    StringsFrom(ss, 1);
    assert ss[0..] == ss && PutStrings(ss[2..]) == [] && PutArrays([]) == [];
  }

  lemma AccountParts(a: Account)
    ensures PutRecord(AccountRecord(a))
            == a.head + PutString(a.username) + PutString(a.owner) + PutString(a.notes) + PutString(a.lockReason)
               + PutArray(a.chanAdmin) + PutArray(a.chanAuth)
  {
    hide PutString, PutArray;
    var ss, aa := AccountRecord(a).strings, AccountRecord(a).arrays;
    StringsFrom(ss, 0);
    StringsFrom(ss, 1);
    StringsFrom(ss, 2);
    StringsFrom(ss, 3);
    assert ss[0..] == ss && |PutStrings(ss[4..])| == 0;
    var last := aa[1..];
    assert last == [a.chanAuth] && |last[1..]| == 0;
    assert PutArrays(last) == PutArray(a.chanAuth) + PutArrays(last[1..]);
    Regroup6(a.head, PutString(a.username), PutString(a.owner), PutString(a.notes), PutString(a.lockReason),
             PutArray(a.chanAdmin), PutArray(a.chanAuth));
  }

  lemma Regroup6(h: seq<byte>, a: seq<byte>, b: seq<byte>, c: seq<byte>, d: seq<byte>, e: seq<byte>, f: seq<byte>)
    ensures h + ((a + (b + (c + (d + [])))) + (e + (f + []))) == h + a + b + c + d + e + f
  {
  }

  // ----- writing

  method PutChannel(buf: array<byte>, at: nat, c: Channel) returns (n: nat)
    requires |c.head| == 48 && at + |PutRecord(ChannelRecord(c))| <= buf.Length
    modifies buf
    ensures n == |PutRecord(ChannelRecord(c))|
    ensures buf[..] == WriteAt(old(buf[..]), at, PutRecord(ChannelRecord(c)))
  {
    hide PutString, PutRecord, ChannelRecord, WriteAt;
    ChannelParts(c);
    n := Copy(buf, at, c.head);
    ghost var bytes := c.head;
    n := NextString(buf, at, n, c.name, old(buf[..]), bytes);
    bytes := bytes + PutString(c.name);
    n := NextString(buf, at, n, c.phonetic, old(buf[..]), bytes);
    bytes := bytes + PutString(c.phonetic);
    n := NextString(buf, at, n, c.comment, old(buf[..]), bytes);
  }

  method PutRank(buf: array<byte>, at: nat, k: Rank) returns (n: nat)
    requires |k.head| == 4 && at + |PutRecord(RankRecord(k))| <= buf.Length
    modifies buf
    ensures n == |PutRecord(RankRecord(k))|
    ensures buf[..] == WriteAt(old(buf[..]), at, PutRecord(RankRecord(k)))
  {
    hide PutString, PutRecord, RankRecord, WriteAt;
    RankParts(k);
    n := Copy(buf, at, k.head);
    ghost var bytes := k.head;
    n := NextString(buf, at, n, k.name, old(buf[..]), bytes);
    bytes := bytes + PutString(k.name);
    n := NextString(buf, at, n, k.description, old(buf[..]), bytes);
  }

  lemma {:induction false} Put16sSnoc(a: seq<u16>, x: u16)
    ensures Put16s(a + [x]) == Put16s(a) + Put16(x)
  {
    if a == [] {
      assert a + [x] == [x] && Put16s([x]) == Put16(x) + Put16s([x][1..]);
    } else {
      Put16sSnoc(a[1..], x);
      assert (a + [x])[1..] == a[1..] + [x];
    }
  }

  /** `_v3_put_msg_uint16_array`: the count is cut to 16 bits, and only that many elements are copied. */
  method PutArrayAt(buf: array<byte>, at: nat, a: seq<u16>) returns (n: nat)
    requires at + |PutArray(a)| <= buf.Length
    modifies buf
    ensures n == |PutArray(a)|
    ensures buf[..] == WriteAt(old(buf[..]), at, PutArray(a))
  {
    hide Put16, Put16s, WriteAt;
    var len := |a| % 0x1_0000;
    n := Copy(buf, at, Put16(len));
    ghost var bytes := Put16(len);
    assert a[..0] == [] && Put16s(a[..0]) == [] by {
      NoElements(a);
    }
    var count := 0;
    while count < len
      invariant 0 <= count <= len
      invariant bytes == Put16(len) + Put16s(a[..count]) && n == |bytes|
      invariant buf[..] == WriteAt(old(buf[..]), at, bytes)
    {
      var k := Copy(buf, at + n, Put16(a[count]));
      WriteAtTwice(old(buf[..]), at, bytes, Put16(a[count]));
      Put16sSnoc(a[..count], a[count]);
      assert a[..count + 1] == a[..count] + [a[count]];
      bytes := bytes + Put16(a[count]);
      assert bytes == Put16(len) + Put16s(a[..count + 1]);
      n := n + k;
      count := count + 1;
    }
  }

  lemma NoElements(a: seq<u16>)
    ensures a[..0] == [] && Put16s(a[..0]) == []
  {
  }

  method NextArray(buf: array<byte>, at: nat, n: nat, a: seq<u16>, ghost was: seq<byte>, ghost bytes: seq<byte>)
    returns (m: nat)
    requires n == |bytes| && at + n + |PutArray(a)| <= buf.Length == |was|
    requires buf[..] == WriteAt(was, at, bytes)
    modifies buf
    ensures m == |bytes + PutArray(a)|
    ensures buf[..] == WriteAt(was, at, bytes + PutArray(a))
  {
    hide PutArray, WriteAt;
    var k := PutArrayAt(buf, at + n, a);
    WriteAtTwice(was, at, bytes, PutArray(a));
    m := n + k;
  }

  method PutAccount(buf: array<byte>, at: nat, a: Account) returns (n: nat)
    requires |a.head| == 104 && at + |PutRecord(AccountRecord(a))| <= buf.Length
    modifies buf
    ensures n == |PutRecord(AccountRecord(a))|
    ensures buf[..] == WriteAt(old(buf[..]), at, PutRecord(AccountRecord(a)))
  {
    hide PutString, PutArray, PutRecord, AccountRecord, WriteAt;
    AccountParts(a);
    n := Copy(buf, at, a.head);
    ghost var bytes := a.head;
    n := NextString(buf, at, n, a.username, old(buf[..]), bytes);
    bytes := bytes + PutString(a.username);
    n := NextString(buf, at, n, a.owner, old(buf[..]), bytes);
    bytes := bytes + PutString(a.owner);
    n := NextString(buf, at, n, a.notes, old(buf[..]), bytes);
    bytes := bytes + PutString(a.notes);
    n := NextString(buf, at, n, a.lockReason, old(buf[..]), bytes);
    bytes := bytes + PutString(a.lockReason);
    n := NextArray(buf, at, n, a.chanAdmin, old(buf[..]), bytes);
    bytes := bytes + PutArray(a.chanAdmin);
    n := NextArray(buf, at, n, a.chanAuth, old(buf[..]), bytes);
  }

  // ----- reading

  lemma FirstArray(data: seq<byte>, off: nat, k: nat)
    requires 0 < k && GetArrays(data, off, k).Some?
    ensures GetArray(data, off).Some?
    ensures (
      var first := GetArray(data, off).value;
      var rest := GetArrays(data, first.1, k - 1);
      rest.Some? && GetArrays(data, off, k).value == ([first.0] + rest.value.0, rest.value.1))
  {
  }

  lemma NoArray(data: seq<byte>, off: nat)
    ensures GetArrays(data, off, 0) == Some(([], off))
  {
  }

  /** The record at the start is its head, and the strings and arrays behind it. */
  lemma FieldsBehind(shape: Shape, data: seq<byte>, start: nat)
    requires GetRecord(shape, data, start).Some?
    ensures start + shape.head <= |data| && GetStrings(data, start + shape.head, shape.strings).Some?
    ensures (
      var ss := GetStrings(data, start + shape.head, shape.strings).value;
      && GetArrays(data, ss.1, shape.arrays).Some?
      && var aa := GetArrays(data, ss.1, shape.arrays).value;
         GetRecord(shape, data, start).value == (Record(data[start..start + shape.head], ss.0, aa.0), aa.1))
  {
  }

  /** `_v3_get_msg_channel` returns the distance from the start to where it stopped. */
  method GetChannel(data: seq<byte>, start: nat) returns (c: Channel, n: int)
    requires GetRecord(CHANNEL, data, start).Some?
    ensures start + n >= 0 && GetRecord(CHANNEL, data, start) == Some((ChannelRecord(c), start + n))
  {
    hide GetString, GetStrings, GetArrays, GetRecord;
    FieldsBehind(CHANNEL, data, start);
    var offset := start + 48;
    var head := data[start..offset];
    var name, phonetic, comment, len;
    FirstString(data, offset, 3);
    name, len := GetStringAt(data, offset);
    offset := offset + len;
    FirstString(data, offset, 2);
    phonetic, len := GetStringAt(data, offset);
    offset := offset + len;
    FirstString(data, offset, 1);
    comment, len := GetStringAt(data, offset);
    offset := offset + len;
    NoString(data, offset);
    NoArray(data, offset);
    c := Channel(head, name, phonetic, comment);
    assert [name] + ([phonetic] + ([comment] + [])) == ChannelRecord(c).strings;
    n := offset - start;
  }

  method GetRank(data: seq<byte>, start: nat) returns (k: Rank, n: int)
    requires GetRecord(RANK, data, start).Some?
    ensures start + n >= 0 && GetRecord(RANK, data, start) == Some((RankRecord(k), start + n))
  {
    hide GetString, GetStrings, GetArrays, GetRecord;
    FieldsBehind(RANK, data, start);
    var offset := start + 4;
    var head := data[start..offset];
    var name, description, len;
    FirstString(data, offset, 2);
    name, len := GetStringAt(data, offset);
    offset := offset + len;
    FirstString(data, offset, 1);
    description, len := GetStringAt(data, offset);
    offset := offset + len;
    NoString(data, offset);
    NoArray(data, offset);
    k := Rank(head, name, description);
    assert [name] + ([description] + []) == RankRecord(k).strings;
    n := offset - start;
  }

  /** `_v3_get_0x60`, on a message that holds the channels it counts. */
  method GetChannels(data: seq<byte>) returns (channels: seq<Channel>)
    requires ReadChannels(data).Some?
    ensures ChannelRecords(channels) == ReadChannels(data).value.0
  {
    hide GetRecord, GetRecords;
    var count := FromLow32(data[4..8]);
    channels := [];
    var ctr: nat, offset: nat := 0, 8;
    ghost var all := ReadChannels(data).value.0;
    ghost var rest := all;
    assert all == ChannelRecords(channels) + rest;
    while ctr < count
      invariant ctr <= count
      invariant GetRecords(CHANNEL, data, offset, count - ctr).Some?
      invariant rest == GetRecords(CHANNEL, data, offset, count - ctr).value.0
      invariant all == ChannelRecords(channels) + rest
    {
      FirstRecord(CHANNEL, data, offset, count - ctr);
      var c, n := GetChannel(data, offset);
      assert ChannelRecords(channels + [c]) == ChannelRecords(channels) + [ChannelRecord(c)];
      offset := offset + n;
      ctr := ctr + 1;
      assert rest == [ChannelRecord(c)] + GetRecords(CHANNEL, data, offset, count - ctr).value.0;
      rest := rest[1..];
      channels := channels + [c];
    }
    NoRecord(CHANNEL, data, offset);
  }

  lemma {:induction false} Get16sSnoc(s: seq<byte>)
    requires |s| % 2 == 0 && s != []
    ensures Get16s(s) == Get16s(s[..|s| - 2]) + [Get16(s[|s| - 2..])]
  {
    var n := |s| - 2;
    if n > 0 {
      Get16sSnoc(s[2..]);
      assert s[2..][..n - 2] == s[..n][2..] && s[2..][n - 2..] == s[n..] && s[..n][..2] == s[..2];
      assert Get16s(s[..n]) == [Get16(s[..n][..2])] + Get16s(s[..n][2..]);
    } else {
      assert s[..2] == s && s[2..] == [] && s[..0] == [];
    }
  }

  /** `_v3_get_msg_uint16_array`, and the count that the caller computes from the length. */
  method GetArrayAt(data: seq<byte>, off: nat) returns (a: seq<u16>, len: u16)
    requires GetArray(data, off).Some?
    ensures GetArray(data, off) == Some((a, off + len))
  {
    hide Get16, Get16s;
    var size: int := Get16(data[off..off + 2]);
    ghost var bytes := data[off + 2..off + 2 + 2 * size];
    var s: seq<u16> := [];
    assert bytes[..0] == [] && Get16s(bytes[..0]) == [] by {
      NoWords(bytes);
    }
    var ctr := 0;
    while ctr < size
      invariant 0 <= ctr <= size && s == Get16s(bytes[..2 * ctr])
    {
      var at := off + 2 + 2 * ctr;
      Get16sSnoc(bytes[..2 * ctr + 2]);
      assert bytes[..2 * ctr + 2][..2 * ctr] == bytes[..2 * ctr];
      assert bytes[..2 * ctr + 2][2 * ctr..] == data[at..at + 2];
      s := s + [Get16(data[at..at + 2])];
      ctr := ctr + 1;
    }
    assert bytes[..2 * size] == bytes;
    len := (size * 2 + 2) % 0x1_0000;
    a := if len < 2 then [] else s[..(len - 2) / 2];
  }

  lemma NoWords(bytes: seq<byte>)
    ensures bytes[..0] == [] && Get16s(bytes[..0]) == []
  {
  }

  method GetAccount(data: seq<byte>, start: nat) returns (a: Account, n: int)
    requires GetRecord(ACCOUNT, data, start).Some?
    ensures start + n >= 0 && GetRecord(ACCOUNT, data, start) == Some((AccountRecord(a), start + n))
  {
    hide GetString, GetStrings, GetArray, GetArrays, GetRecord;
    FieldsBehind(ACCOUNT, data, start);
    var offset := start + 104;
    var head := data[start..offset];
    var username, owner, notes, lockReason, chanAdmin, chanAuth, len;
    FirstString(data, offset, 4);
    username, len := GetStringAt(data, offset);
    offset := offset + len;
    FirstString(data, offset, 3);
    owner, len := GetStringAt(data, offset);
    offset := offset + len;
    FirstString(data, offset, 2);
    notes, len := GetStringAt(data, offset);
    offset := offset + len;
    FirstString(data, offset, 1);
    lockReason, len := GetStringAt(data, offset);
    offset := offset + len;
    NoString(data, offset);
    FirstArray(data, offset, 2);
    chanAdmin, len := GetArrayAt(data, offset);
    offset := offset + len;
    FirstArray(data, offset, 1);
    chanAuth, len := GetArrayAt(data, offset);
    offset := offset + len;
    NoArray(data, offset);
    a := Account(head, username, owner, notes, lockReason, chanAdmin, chanAuth);
    assert [username] + ([owner] + ([notes] + ([lockReason] + []))) == AccountRecord(a).strings;
    assert [chanAdmin] + ([chanAuth] + []) == AccountRecord(a).arrays;
    n := offset - start;
  }
}
