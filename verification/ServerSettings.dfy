/** The server settings and the two transfers that carry them, one property to a message. */
module ServerSettings {
  import opened Bytes
  import opened Decimal
  import opened Channels
  import opened ChannelPath

  const FINISH: u16 := 0x1C

  /** A C string that fits a 256 byte field. */
  type text = s: seq<byte> | |s| <= 255 && 0 !in s

  datatype Settings = Settings(
    chatFilter: byte,
    channelOrder: byte,
    motdAlways: byte,
    chatSpam: Filter,
    commentSpam: Filter,
    waveSpam: Filter,
    ttsSpam: Filter,
    inactiveTimeout: u32,
    inactiveAction: byte,
    inactiveChannel: u16,
    removeServerComment: byte,
    removeChannelNames: byte,
    removeChannelComments: byte,
    removeUserNames: byte,
    removeUserComments: byte,
    comment: text,
    waveBind: byte,
    ttsBind: byte,
    channelSpam: Filter,
    showLogin: byte,
    maxGuest: byte,
    autokickTime: u32,
    autobanTime: u32)

  const NO_FILTER := Filter(0, 0, 0)
  const NO_SETTINGS := Settings(0, 0, 0, NO_FILTER, NO_FILTER, NO_FILTER, NO_FILTER, 0, 0, 0, 0, 0, 0, 0, 0, [], 0,
      0, NO_FILTER, 0, 0, 0, 0)

  function Clip255(s: seq<byte>): (r: text) {
    var c := CStr(s);
    if |c| <= 255 then c else c[..255]
  }

  /** The properties that carry a setting. */
  predicate Live(p: u16) {
    2 <= p < FINISH && p != 0x04 && p != 0x06 && p != 0x17
  }

  /** What a received value does to the settings; the first property of a transfer clears them. */
  function Put(s: Settings, p: u16, value: seq<byte>, list: seq<Channel>): Settings {
    if p == 0 then NO_SETTINGS
    else if p == 0x02 then s.(chatFilter := To8(Atoi(value)))
    else if p == 0x03 then s.(channelOrder := To8(Atoi(value)))
    else if p == 0x05 then s.(motdAlways := To8(Atoi(value)))
    else if p == 0x07 then s.(chatSpam := Parsed(s.chatSpam, value))
    else if p == 0x08 then s.(commentSpam := Parsed(s.commentSpam, value))
    else if p == 0x09 then s.(waveSpam := Parsed(s.waveSpam, value))
    else if p == 0x0A then s.(ttsSpam := Parsed(s.ttsSpam, value))
    else if p == 0x0B then s.(inactiveTimeout := Wrap32(Atoi(value)))
    else if p == 0x0C then s.(inactiveAction := To8(Atoi(value)))
    else if p == 0x0D then s.(inactiveChannel := IdOf(list, value))
    else if p == 0x0E then s.(removeServerComment := To8(Atoi(value)))
    else if p == 0x0F then s.(removeChannelNames := To8(Atoi(value)))
    else if p == 0x10 then s.(removeChannelComments := To8(Atoi(value)))
    else if p == 0x11 then s.(removeUserNames := To8(Atoi(value)))
    else if p == 0x12 then s.(removeUserComments := To8(Atoi(value)))
    else if p == 0x13 then s.(comment := Clip255(value))
    else if p == 0x14 then s.(waveBind := To8(Atoi(value)))
    else if p == 0x15 then s.(ttsBind := To8(Atoi(value)))
    else if p == 0x16 then s.(channelSpam := Parsed(s.channelSpam, value))
    else if p == 0x18 then s.(showLogin := To8(Atoi(value)))
    else if p == 0x19 then s.(maxGuest := To8(Atoi(value)))
    else if p == 0x1A then s.(autokickTime := Wrap32(Atoi(value)))
    else if p == 0x1B then s.(autobanTime := Wrap32(Atoi(value)))
    else s
  }

  /** The path of the inactivity channel in a 256 byte buffer; without a channel it is empty. */
  function PathText(id: u16, list: seq<Channel>, d: nat): text
    requires Ends(list, id, d)
  {
    var path := PathOf(list, id, d);
    if path.None? then [] else Clip255(path.value)
  }

  /** The text sent for a property. */
  function Text(s: Settings, p: u16, list: seq<Channel>, d: nat): seq<byte>
    requires Ends(list, s.inactiveChannel, d)
  {
    if p == 0x02 then Digits(s.chatFilter)
    else if p == 0x03 then Digits(s.channelOrder)
    else if p == 0x05 then Digits(s.motdAlways)
    else if p == 0x07 then FilterText(s.chatSpam)
    else if p == 0x08 then FilterText(s.commentSpam)
    else if p == 0x09 then FilterText(s.waveSpam)
    else if p == 0x0A then FilterText(s.ttsSpam)
    else if p == 0x0B then Digits(s.inactiveTimeout)
    else if p == 0x0C then Digits(s.inactiveAction)
    else if p == 0x0D then PathText(s.inactiveChannel, list, d)
    else if p == 0x0E then Digits(s.removeServerComment)
    else if p == 0x0F then Digits(s.removeChannelNames)
    else if p == 0x10 then Digits(s.removeChannelComments)
    else if p == 0x11 then Digits(s.removeUserNames)
    else if p == 0x12 then Digits(s.removeUserComments)
    else if p == 0x13 then s.comment
    else if p == 0x14 then Digits(s.waveBind)
    else if p == 0x15 then Digits(s.ttsBind)
    else if p == 0x16 then FilterText(s.channelSpam)
    else if p == 0x18 then Digits(s.showLogin)
    else if p == 0x19 then Digits(s.maxGuest)
    else if p == 0x1A then Digits(s.autokickTime)
    else if p == 0x1B then Digits(s.autobanTime)
    else []
  }

  /** The property asked for after this one was received. */
  function Asked(p: u16): u16 {
    if p in {0x03, 0x04, 0x05, 0x06, 0x16, 0x17} then p + 2 else (p + 1) % 0x1_0000
  }

  /** The property sent after this one was acknowledged. */
  function Due(p: u16): u16 {
    var q := (p + 1) % 0x1_0000;
    if q in {0x04, 0x06, 0x17, FINISH} then q + 1 else q
  }

  predicate Agree(a: Settings, b: Settings, p: nat) {
    && (0x02 < p ==> a.chatFilter == b.chatFilter)
    && (0x03 < p ==> a.channelOrder == b.channelOrder)
    && (0x05 < p ==> a.motdAlways == b.motdAlways)
    && (0x07 < p ==> a.chatSpam == b.chatSpam)
    && (0x08 < p ==> a.commentSpam == b.commentSpam)
    && (0x09 < p ==> a.waveSpam == b.waveSpam)
    && (0x0A < p ==> a.ttsSpam == b.ttsSpam)
    && (0x0B < p ==> a.inactiveTimeout == b.inactiveTimeout)
    && (0x0C < p ==> a.inactiveAction == b.inactiveAction)
    && (0x0E < p ==> a.removeServerComment == b.removeServerComment)
    && (0x0F < p ==> a.removeChannelNames == b.removeChannelNames)
    && (0x10 < p ==> a.removeChannelComments == b.removeChannelComments)
    && (0x11 < p ==> a.removeUserNames == b.removeUserNames)
    && (0x12 < p ==> a.removeUserComments == b.removeUserComments)
    && (0x13 < p ==> a.comment == b.comment)
    && (0x14 < p ==> a.waveBind == b.waveBind)
    && (0x15 < p ==> a.ttsBind == b.ttsBind)
    && (0x16 < p ==> a.channelSpam == b.channelSpam)
    && (0x18 < p ==> a.showLogin == b.showLogin)
    && (0x19 < p ==> a.maxGuest == b.maxGuest)
    && (0x1A < p ==> a.autokickTime == b.autokickTime)
    && (0x1B < p ==> a.autobanTime == b.autobanTime)
  }
}
