/** Crash recovery: scanning a temporary file, rebuilding the segment table, and finishing the file.

    This algorithm shares no state with the recorder. The main result is that it builds the same bytes. */
module VrfRecover {
  import opened Bytes
  import opened VrfFormat
  import opened VrfImage

  datatype Error = Eof | NotVrf | UnknownHeader | FragmentFirst | UnknownType | Malformed | OffsetWraps

  datatype Result<+T> = Ok(value: T) | Err(error: Error)

  function Word(file: seq<byte>, off: nat): u32
    requires off + 4 <= |file|
  {
    Get32(file[off..off + 4])
  }

  /** How many bytes of a fragment header are read for a segment type. */
  function FragRead(kind: u32): Result<nat> {
    if kind == TYPE_AUDIO then Ok(16)
    else if kind == TYPE_TEXT then Ok(8)
    else if kind == TYPE_EXT then Ok(FRAGMENT_LEN)
    else Err(UnknownType)
  }

  datatype Found = Found(head: FragHead, headlen: nat, datalen: u32)

  /** `_v3_vrf_get_fragment` up to the payload: the header, and the length that the header claims for the payload. */
  function GetFragment(file: seq<byte>, kind: u32, off: nat): (r: Result<Found>)
    ensures r.Ok? ==> 8 <= r.value.headlen <= FRAGMENT_LEN && off + r.value.headlen <= |file|
  {
    var size := FragRead(kind);
    if size.Err? then Err(size.error)
    else if off + size.value > |file| then Err(Eof)
    else
      var head := GetFrag(file[off..off + size.value] + Zeros(FRAGMENT_LEN - size.value));
      Ok(Found(head, size.value, if kind == TYPE_TEXT then Wrap32(head.headlen - 8) else head.fraglen))
  }

  /** A table entry for the audio record at off; `unknown1` counts its fragments while the scan goes on. */
  function NewEntry(file: seq<byte>, off: nat): Segment
    requires off + AUDIO_LEN <= |file|
  {
    var audio := GetAudio(file[off..off + AUDIO_LEN]);
    var rest := file[off + AUDIO_LEN..];
    var n := if |rest| < NAME_LEN - 1 then |rest| else NAME_LEN - 1;
    Segment(SEGMENT_LEN, audio.kind, 0, Wrap32(off), 0, 0, 0, 0, rest[..n] + Zeros(NAME_LEN - n))
  }

  function Tally(g: Segment, head: FragHead): Segment {
    var counted := g.(valid := 1, unknown1 := Wrap32(g.unknown1 + 1));
    if g.kind == TYPE_TEXT then counted.(time := head.fraglen)
    else if g.kind == TYPE_AUDIO || g.kind == TYPE_EXT then
      if g.time == 0 then counted.(time := head.unknown1)
      else counted.(duration := Wrap32(head.unknown1 - g.time))
    else counted
  }

  /** The scan from offset off, with the table built so far. The C offset is 32 bits wide; a fragment length that would
      wrap it is reported as an error here. */
  function Scan(file: seq<byte>, off: nat, table: seq<Segment>): Result<seq<Segment>>
    decreases |file| - off
  {
    if off + 4 >= |file| then Ok(table)
    else
      var headlen := Word(file, off);
      if headlen == AUDIO_HEAD then
        if off + AUDIO_LEN > |file| then Err(Eof)
        else if off + AUDIO_HEAD >= MOD32 then Err(OffsetWraps)
        else Scan(file, off + AUDIO_HEAD, table + [NewEntry(file, off)])
      else if headlen == FRAGMENT_LEN || headlen == TEXT_HEAD then
        if table == [] then Err(FragmentFirst)
        else
          var last := |table| - 1;
          var found := GetFragment(file, table[last].kind, off);
          if found.Err? then Err(found.error)
          else
            var next := off + found.value.headlen + found.value.datalen;
            if next >= MOD32 then Err(OffsetWraps)
            else Scan(file, next, table[last := Tally(table[last], found.value.head)])
      else Err(UnknownHeader)
  }

  function PatchOne(file: seq<byte>, g: Segment): seq<byte> {
    if g.offset + AUDIO_LEN > |file| then file
    else
      WriteAt(file, g.offset, PutAudio(GetAudio(file[g.offset..g.offset + AUDIO_LEN]).(fragcount := g.unknown1)))
  }

  /** The audio records of the first n entries get their fragment counts. */
  function PatchFirst(file: seq<byte>, table: seq<Segment>, n: nat): seq<byte>
    requires n <= |table|
  {
    if n == 0 then file else PatchOne(PatchFirst(file, table, n - 1), table[n - 1])
  }

  function PutTable(table: seq<Segment>): seq<byte> {
    if table == [] then []
    else PutTable(table[..|table| - 1]) + PutSegment(table[|table| - 1].(unknown1 := 0))
  }

  /** `v3_vrf_init` on an existing file: what the file holds afterwards, or why opening it failed. */
  function Recover(file: seq<byte>): Result<seq<byte>> {
    if |file| < HEADER_LEN then Err(Eof)
    else
      var header := GetHeader(file[..HEADER_LEN]);
      if header.headid != HEAD_ID && header.headid != TEMP_ID then Err(NotVrf)
      else if header.headid != TEMP_ID then Ok(file)
      else
        var scan := Scan(file, HEADER_LEN, []);
        if scan.Err? then Err(scan.error)
        else
          var table := scan.value;
          Ok(FinishFile(PatchFirst(file, table, |table|), header.(segcount := Wrap32(|table|)), PutTable(table)))
  }

  /** The loop that rebuilds the table. */
  method ScanFile(file: seq<byte>) returns (r: Result<seq<Segment>>)
    ensures r == Scan(file, HEADER_LEN, [])
  {
    hide Word, GetFragment, NewEntry, Tally;
    var off: nat := HEADER_LEN;
    var table: seq<Segment> := [];
    while off + 4 < |file|
      invariant Scan(file, off, table) == Scan(file, HEADER_LEN, [])
      decreases |file| - off
    {
      var headlen := Word(file, off);
      if headlen == AUDIO_HEAD {
        if off + AUDIO_LEN > |file| {
          return Err(Eof);
        }
        if off + AUDIO_HEAD >= MOD32 {
          return Err(OffsetWraps);
        }
        table := table + [NewEntry(file, off)];
        off := off + AUDIO_HEAD;
      } else if headlen == FRAGMENT_LEN || headlen == TEXT_HEAD {
        if table == [] {
          return Err(FragmentFirst);
        }
        var last := |table| - 1;
        var found := GetFragment(file, table[last].kind, off);
        if found.Err? {
          return Err(found.error);
        }
        var next := off + found.value.headlen + found.value.datalen;
        if next >= MOD32 {
          return Err(OffsetWraps);
        }
        table := table[last := Tally(table[last], found.value.head)];
        off := next;
      } else {
        return Err(UnknownHeader);
      }
    }
    r := Ok(table);
  }

  /** `_v3_vrf_recover`: scan, patch every audio record, convert the table, finish. A failed scan leaves the file
      alone. */
  method RecoverFile(file: seq<byte>) returns (r: Result<seq<byte>>)
    ensures r == Recover(file)
  {
    hide Scan, PatchOne, PutSegment, GetHeader, FinishFile;
    if |file| < HEADER_LEN {
      return Err(Eof);
    }
    var header := GetHeader(file[..HEADER_LEN]);
    if header.headid != HEAD_ID && header.headid != TEMP_ID {
      return Err(NotVrf);
    }
    if header.headid != TEMP_ID {
      return Ok(file);
    }
    var scan := ScanFile(file);
    if scan.Err? {
      return Err(scan.error);
    }
    var table := scan.value;
    var patched := file;
    var bytes: seq<byte> := [];
    var ctr := 0;
    while ctr < |table|
      invariant 0 <= ctr <= |table|
      invariant patched == PatchFirst(file, table, ctr)
      invariant bytes == PutTable(table[..ctr])
    {
      patched := PatchOne(patched, table[ctr]);
      assert table[..ctr + 1][..ctr] == table[..ctr];
      bytes := bytes + PutSegment(table[ctr].(unknown1 := 0));
      ctr := ctr + 1;
    }
    assert table[..ctr] == table;
    r := Ok(FinishFile(patched, header.(segcount := Wrap32(|table|)), bytes));
  }
}
