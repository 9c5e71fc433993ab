/** The client's side of the two transfers, and what they do against a server that stores and echoes. */
module ServerTransfer {
  import opened Bytes
  import opened Decimal
  import opened Channels
  import opened ChannelPath
  import opened ServerSettings

  const RECV: u16 := 0
  const SEND: u16 := 1
  const SEND_DONE: u16 := 3
  const CLOSE: u16 := 4

  type cstring = s: seq<byte> | 0 !in s

  datatype Message = Message(subtype: u16, property: u16, tid: u16, value: seq<byte>)

  datatype Event = Received(settings: Settings) | Sent(settings: Settings)

  datatype State = State(prop: Settings, tid: u16, out: seq<Message>, events: seq<Event>)

  /** What one message does to the client; messages of another transaction do nothing. */
  function React(c: State, m: Message, list: seq<Channel>, d: nat): State
    requires m.subtype == SEND ==> Ends(list, c.prop.inactiveChannel, d)
  {
    if m.tid != c.tid then c
    else if m.subtype == RECV then
      var prop := Put(c.prop, m.property, m.value, list);
      if Asked(m.property) <= FINISH
      then c.(prop := prop, out := c.out + [Message(RECV, Asked(m.property), c.tid, [])])
      else c.(prop := prop, events := c.events + [Received(prop)])
    else if m.subtype == SEND then
      if Due(m.property) <= FINISH
      then c.(out := c.out + [Message(SEND, Due(m.property), c.tid, Text(c.prop, Due(m.property), list, d))])
      else c.(out := c.out + [Message(SEND_DONE, 0, c.tid, [])], events := c.events + [Sent(c.prop)])
    else c
  }

  class Client {
    var prop: Settings
    var tid: u16
    var out: seq<Message>
    var events: seq<Event>

    ghost function Now(): State
      reads this
    {
      State(prop, tid, out, events)
    }

    constructor ()
      ensures Now() == State(NO_SETTINGS, 0, [], [])
    {
      prop, tid, out, events := NO_SETTINGS, 0, [], [];
    }

    /** Asks for the settings under a new transaction number. */
    method Open(number: u16)
      modifies this
      ensures Now() == old(Now()).(tid := number, out := old(out) + [Message(0, 0, number, [])])
    {
      tid := number;
      out := out + [Message(RECV, 0, tid, [])];
    }

    method Close()
      modifies this
      ensures Now() == old(Now()).(tid := 0, out := old(out) + [Message(4, 0, 0, [])])
    {
      tid := 0;
      out := out + [Message(CLOSE, 0, tid, [])];
    }

    /** Takes over new settings and sends the first of them. */
    method Update(settings: Settings, number: u16)
      modifies this
      ensures Now() == old(Now()).(prop := settings, tid := number,
                                   out := old(out) + [Message(1, 2, number, Digits(settings.chatFilter))])
    {
      prop := settings;
      tid := number;
      out := out + [Message(SEND, 2, tid, Digits(prop.chatFilter))];
    }

    /** Message 0x4c. */
    method Handle(m: Message, list: seq<Channel>, ghost d: nat)
      requires Distinct(list) && (m.subtype == SEND ==> Ends(list, prop.inactiveChannel, d))
      modifies this
      ensures Now() == React(old(Now()), m, list, d)
    {
      hide Put, Text, Ends, Distinct;
      if m.subtype != RECV && m.subtype != SEND {
        return;
      }
      if m.tid != tid {
        return;
      }
      var value: seq<byte> := [];
      var property;
      if m.subtype == RECV {
        property := Take(m.property, m.value, list);
      } else {
        property, value := Give(m.property, list, d);
      }
      if property <= FINISH {
        out := out + [Message(m.subtype, property, m.tid, value)];
      } else {
        if m.subtype == SEND {
          out := out + [Message(SEND_DONE, 0, m.tid, [])];
        }
        events := events + [if m.subtype == RECV then Received(prop) else Sent(prop)];
      }
    }

    /** The switch over a received property; some cases run on into the next and so skip a number. */
    method Take(received: u16, value: seq<byte>, list: seq<Channel>) returns (property: u16)
      modifies this`prop
      ensures property == Asked(received)
      ensures prop == Put(old(prop), received, value, list)
    {
      hide Atoi, IdOf, Clip255, Parsed;
      property := (received + 1) % 0x1_0000;
      match received
      case 0x00 => prop := NO_SETTINGS;
      case 0x02 =>
        prop := prop.(chatFilter := To8(Atoi(value)));
      case 0x03 =>
        prop := prop.(channelOrder := To8(Atoi(value)));
        property := property + 1;
      case 0x04 => property := property + 1;
      case 0x05 =>
        prop := prop.(motdAlways := To8(Atoi(value)));
        property := property + 1;
      case 0x06 => property := property + 1;
      case 0x07 =>
        var f, _ := ParseFilter(prop.chatSpam, value);
        prop := prop.(chatSpam := f);
      case 0x08 =>
        var f, _ := ParseFilter(prop.commentSpam, value);
        prop := prop.(commentSpam := f);
      case 0x09 =>
        var f, _ := ParseFilter(prop.waveSpam, value);
        prop := prop.(waveSpam := f);
      case 0x0A =>
        var f, _ := ParseFilter(prop.ttsSpam, value);
        prop := prop.(ttsSpam := f);
      case 0x0B =>
        prop := prop.(inactiveTimeout := Wrap32(Atoi(value)));
      case 0x0C =>
        prop := prop.(inactiveAction := To8(Atoi(value)));
      case 0x0D =>
        var id := GetId(list, value);
        prop := prop.(inactiveChannel := id);
      case 0x0E =>
        prop := prop.(removeServerComment := To8(Atoi(value)));
      case 0x0F =>
        prop := prop.(removeChannelNames := To8(Atoi(value)));
      case 0x10 =>
        prop := prop.(removeChannelComments := To8(Atoi(value)));
      case 0x11 =>
        prop := prop.(removeUserNames := To8(Atoi(value)));
      case 0x12 =>
        prop := prop.(removeUserComments := To8(Atoi(value)));
      case 0x13 =>
        prop := prop.(comment := Clip255(value));
      case 0x14 =>
        prop := prop.(waveBind := To8(Atoi(value)));
      case 0x15 =>
        prop := prop.(ttsBind := To8(Atoi(value)));
      case 0x16 =>
        var f, _ := ParseFilter(prop.channelSpam, value);
        prop := prop.(channelSpam := f);
        property := property + 1;
      case 0x17 => property := property + 1;
      case 0x18 =>
        prop := prop.(showLogin := To8(Atoi(value)));
      case 0x19 =>
        prop := prop.(maxGuest := To8(Atoi(value)));
      case 0x1A =>
        prop := prop.(autokickTime := Wrap32(Atoi(value)));
      case 0x1B =>
        prop := prop.(autobanTime := Wrap32(Atoi(value)));
      case _ =>
    }

    /** The switch over an acknowledged property, made on the number after it. */
    method Give(acknowledged: u16, list: seq<Channel>, ghost d: nat) returns (property: u16, value: seq<byte>)
      requires Distinct(list) && Ends(list, prop.inactiveChannel, d)
      ensures property == Due(acknowledged)
      ensures property <= FINISH ==> value == Text(prop, property, list, d)
    {
      hide Distinct, Ends, FilterText, Digits;
      property := (acknowledged + 1) % 0x1_0000;
      value := [];
      match property
      case 0x02 => value := Digits(prop.chatFilter);
      case 0x03 => value := Digits(prop.channelOrder);
      case 0x04 =>
        property, value := property + 1, Digits(prop.motdAlways);
      case 0x05 => value := Digits(prop.motdAlways);
      case 0x06 =>
        property, value := property + 1, FilterText(prop.chatSpam);
      case 0x07 => value := FilterText(prop.chatSpam);
      case 0x08 => value := FilterText(prop.commentSpam);
      case 0x09 => value := FilterText(prop.waveSpam);
      case 0x0A => value := FilterText(prop.ttsSpam);
      case 0x0B => value := Digits(prop.inactiveTimeout);
      case 0x0C => value := Digits(prop.inactiveAction);
      case 0x0D =>
        var path := GetPath(list, prop.inactiveChannel, d);
        value := if path.None? then [] else Clip255(path.value);
      case 0x0E => value := Digits(prop.removeServerComment);
      case 0x0F => value := Digits(prop.removeChannelNames);
      case 0x10 => value := Digits(prop.removeChannelComments);
      case 0x11 => value := Digits(prop.removeUserNames);
      case 0x12 => value := Digits(prop.removeUserComments);
      case 0x13 => value := prop.comment;
      case 0x14 => value := Digits(prop.waveBind);
      case 0x15 => value := Digits(prop.ttsBind);
      case 0x16 => value := FilterText(prop.channelSpam);
      case 0x17 =>
        property, value := property + 1, Digits(prop.showLogin);
      case 0x18 => value := Digits(prop.showLogin);
      case 0x19 => value := Digits(prop.maxGuest);
      case 0x1A => value := Digits(prop.autokickTime);
      case 0x1B => value := Digits(prop.autobanTime);
      case 0x1C => property := property + 1;
      case _ =>
    }
  }
}
