/** Length framing over TCP: the stream is what counts, not how it is cut into segments. */
module Framing {
  import opened Bytes
  import opened Options
  import opened Cipher

  /** `_v3_send_enc_msg`: the length is the low 16 bits of the message length. */
  function Frame(data: seq<byte>): seq<byte> {
    Put16(|data| % 0x1_0000) + data
  }

  function Joined(segments: seq<seq<byte>>): seq<byte> {
    if segments == [] then [] else segments[0] + Joined(segments[1..])
  }

  /** The receiving end of a TCP connection: the segments that have not been read, none of them empty. Without a segment
      the peer has closed. */
  class Socket {
    var segments: seq<seq<byte>>

    ghost predicate Valid()
      reads this
    {
      forall i :: 0 <= i < |segments| ==> segments[i] != []
    }

    ghost function Stream(): seq<byte>
      reads this
    {
      Joined(segments)
    }

    /** `recv`: at least one byte and at most n, from the first segment; nothing at the end of the stream. */
    method Recv(n: nat) returns (bs: seq<byte>)
      requires Valid() && n > 0
      modifies this
      ensures Valid()
      ensures |bs| <= n && old(Stream()) == bs + Stream()
      ensures bs == [] <==> old(Stream()) == []
    {
      if segments == [] {
        return [];
      }
      var first := segments[0];
      JoinedSplit(segments, n);
      if |first| <= n {
        bs := first;
        segments := segments[1..];
      } else {
        bs := first[..n];
        segments := [first[n..]] + segments[1..];
      }
    }

    /** `_v3_recv_enc_msg`: two length bytes one at a time, then the body in as many reads as it takes. None stands for
        a closed connection. */
    method RecvMessage() returns (msg: Option<seq<byte>>)
      requires Valid()
      modifies this
      ensures Valid()
      ensures match Unframed(old(Stream()))
              case None => msg == None
              case Some(r) => msg == Some(r.msg) && Stream() == r.rest
    {
      hide Joined, Get16, Unframed;
      ghost var stream := Stream();
      var high := Recv(1);
      if high == [] {
        TooShort(stream);
        return None;
      }
      ghost var tail := Stream();
      var low := Recv(1);
      if low == [] {
        TooShort(stream);
        return None;
      }
      ghost var body := Stream();
      HeadSplit(stream, high, low, tail, body);
      var len := Get16(high + low);
      var buff: seq<byte> := [];
      while |buff| < len
        invariant Valid() && |buff| <= len && body == buff + Stream()
        decreases len - |buff|
      {
        var part := Recv(len - |buff|);
        if part == [] {
          BodyShort(stream, len, body, buff, Stream());
          return None;
        }
        PartMoves(body, buff, part, Stream());
        buff := buff + part;
      }
      BodyWhole(stream, body, buff, Stream());
      return Some(buff);
    }
  }

  lemma TooShort(stream: seq<byte>)
    requires |stream| < 2
    ensures Unframed(stream) == None
  {
  }

  lemma HeadSplit(stream: seq<byte>, high: seq<byte>, low: seq<byte>, tail: seq<byte>, body: seq<byte>)
    requires stream == high + tail && tail == low + body && |high| == |low| == 1
    ensures |stream| >= 2 && stream[..2] == high + low && stream[2..] == body
  {
  }

  lemma BodyShort(stream: seq<byte>, len: nat, body: seq<byte>, buff: seq<byte>, left: seq<byte>)
    requires |stream| >= 2 && stream[2..] == body && len == Get16(stream[..2])
    requires body == buff + left && left == [] && |buff| < len
    ensures Unframed(stream) == None
  {
    hide Get16;
  }

  lemma PartMoves(body: seq<byte>, buff: seq<byte>, part: seq<byte>, left: seq<byte>)
    requires body == buff + (part + left)
    ensures body == buff + part + left
  {
  }

  lemma BodyWhole(stream: seq<byte>, body: seq<byte>, buff: seq<byte>, left: seq<byte>)
    requires |stream| >= 2 && stream[2..] == body && |buff| == Get16(stream[..2])
    requires body == buff + left
    ensures Unframed(stream) == Some(Received(buff, left))
  {
    hide Get16;
    var len := |buff|;
    assert stream[2..2 + len] == body[..len] && stream[2 + len..] == body[len..];
  }

  lemma JoinedSplit(segments: seq<seq<byte>>, n: nat)
    requires segments != []
    ensures Joined(segments) == segments[0] + Joined(segments[1..])
    ensures n < |segments[0]| ==>
              Joined([segments[0][n..]] + segments[1..]) == segments[0][n..] + Joined(segments[1..])
              && segments[0] == segments[0][..n] + segments[0][n..]
    ensures (forall i :: 0 <= i < |segments| ==> segments[i] != []) ==> Joined(segments) != []
  {
    if n < |segments[0]| {
      assert ([segments[0][n..]] + segments[1..])[1..] == segments[1..];
    }
  }

  datatype Received = Received(msg: seq<byte>, rest: seq<byte>)

  /** What the two length bytes and the stream say, whatever the segments. */
  function Unframed(stream: seq<byte>): Option<Received> {
    if |stream| < 2 then None
    else
      var len := Get16(stream[..2]);
      if |stream| < 2 + len then None else Some(Received(stream[2..2 + len], stream[2 + len..]))
  }

  lemma UnframedFrame(data: seq<byte>, rest: seq<byte>)
    requires |data| < 0x1_0000
    ensures Unframed(Frame(data) + rest) == Some(Received(data, rest))
  {
    var s := Frame(data) + rest;
    assert s[..2] == Put16(|data|);
    Get16Put16(|data|);
    assert s[2..2 + |data|] == data && s[2 + |data|..] == rest;
  }

  /** The length goes first, its high byte before its low one. */
  lemma FrameBytes(data: seq<byte>)
    ensures |Frame(data)| == 2 + |data| && Frame(data)[2..] == data
    ensures var high: int, low: int := Frame(data)[0], Frame(data)[1]; high * 256 + low == |data| % 65536
  {
  }

  // ----- both ends of one direction

  /** What happens in one direction of the connection, in order: the first message, further messages, and scrambles,
      which both ends do at the same message boundary. */
  datatype Op = First(data: seq<byte>) | Message(data: seq<byte>) | Rekey(v3key: HandshakeKey)

  /** A zero length reads as a closed connection and a longer message does not fit the length field. */
  predicate Sendable(op: Op) {
    op.Rekey? || 0 < |op.data| < 0x1_0000
  }

  datatype Sent = Sent(key: Key, stream: seq<byte>)

  function SendAll(key: Key, ops: seq<Op>): (r: Sent)
    requires key.Valid()
    ensures r.key.Valid()
    decreases |ops|
  {
    if ops == [] then Sent(key, [])
    else
      match ops[0]
      case First(data) =>
        var r := SendAll(key, ops[1..]);
        Sent(r.key, Frame(FirstEncrypted(data)) + r.stream)
      case Message(data) =>
        var r := SendAll(After(key, |data|), ops[1..]);
        Sent(r.key, Frame(Encrypted(key, data)) + r.stream)
      case Rekey(v3key) =>
        ScrambledKey(key, v3key);
        SendAll(Scrambled(key, v3key), ops[1..])
  }

  /** The messages of a script. */
  function Plain(ops: seq<Op>): seq<seq<byte>> {
    if ops == [] then []
    else if ops[0].Rekey? then Plain(ops[1..])
    else [ops[0].data] + Plain(ops[1..])
  }

  /** What the receiver does for each operation; it knows which message is the first and when to scramble. */
  datatype Shape = ReadFirst | ReadMessage | DoRekey(v3key: HandshakeKey)

  function ShapeOf(op: Op): Shape {
    match op
    case First(_) => ReadFirst
    case Message(_) => ReadMessage
    case Rekey(v3key) => DoRekey(v3key)
  }

  function Shapes(ops: seq<Op>): (r: seq<Shape>)
    ensures |r| == |ops|
    ensures forall i :: 0 <= i < |r| ==> r[i] == ShapeOf(ops[i])
  {
    if ops == [] then [] else [ShapeOf(ops[0])] + Shapes(ops[1..])
  }

  datatype Outcome = Outcome(key: Key, msgs: seq<seq<byte>>, rest: seq<byte>)

  function Prepend(msg: seq<byte>, o: Option<Outcome>): Option<Outcome> {
    if o.None? then None else Some(o.value.(msgs := [msg] + o.value.msgs))
  }

  /** The receiver on a byte stream. None stands for a closed connection; an empty message is taken for one. */
  function ReceivedAll(key: Key, shapes: seq<Shape>, stream: seq<byte>): Option<Outcome>
    requires key.Valid()
    decreases |shapes|
  {
    if shapes == [] then Some(Outcome(key, [], stream))
    else if shapes[0].DoRekey? then
      ScrambledKey(key, shapes[0].v3key);
      ReceivedAll(Scrambled(key, shapes[0].v3key), shapes[1..], stream)
    else
      var r := Unframed(stream);
      if r.None? || r.value.msg == [] then None
      else if shapes[0].ReadFirst? then
        Prepend(FirstDecrypted(r.value.msg), ReceivedAll(key, shapes[1..], r.value.rest))
      else
        Prepend(Decrypted(key, r.value.msg), ReceivedAll(After(key, |r.value.msg|), shapes[1..], r.value.rest))
  }

  /** End to end: any script of nonempty messages below 64 KiB, with scrambles at matching boundaries, arrives as the
      sent plaintexts in order, both ends finish with the same key state, and later bytes stay in the stream. */
  lemma {:induction false} EndToEnd(key: Key, ops: seq<Op>, rest: seq<byte>)
    requires key.Valid() && forall i :: 0 <= i < |ops| ==> Sendable(ops[i])
    ensures var sent := SendAll(key, ops);
            ReceivedAll(key, Shapes(ops), sent.stream + rest) == Some(Outcome(sent.key, Plain(ops), rest))
    decreases |ops|
  {
    hide Encrypted, Decrypted, FirstEncrypted, FirstDecrypted, Scrambled, After, Frame, Unframed;
    if ops == [] {
      assert [] + rest == rest;
    } else {
      assert Shapes(ops)[1..] == Shapes(ops[1..]);
      match ops[0]
      case First(data) =>
        var later := SendAll(key, ops[1..]).stream;
        EndToEnd(key, ops[1..], rest);
        FirstArrives(data, later, rest);
      case Message(data) =>
        var later := SendAll(After(key, |data|), ops[1..]).stream;
        EndToEnd(After(key, |data|), ops[1..], rest);
        MessageArrives(key, data, later, rest);
      case Rekey(v3key) =>
        ScrambledKey(key, v3key);
        EndToEnd(Scrambled(key, v3key), ops[1..], rest);
    }
  }

  lemma FirstArrives(data: seq<byte>, later: seq<byte>, rest: seq<byte>)
    requires 0 < |data| < 0x1_0000
    ensures var r := Unframed(Frame(FirstEncrypted(data)) + later + rest); (
              r.Some? && r.value.rest == later + rest && r.value.msg != [] && FirstDecrypted(r.value.msg) == data)
  {
    hide FirstEncrypted, FirstDecrypted, Frame, Unframed;
    assert Frame(FirstEncrypted(data)) + later + rest == Frame(FirstEncrypted(data)) + (later + rest);
    UnframedFrame(FirstEncrypted(data), later + rest);
    FirstDecryptEncrypt(data);
  }

  lemma MessageArrives(key: Key, data: seq<byte>, later: seq<byte>, rest: seq<byte>)
    requires key.Valid() && 0 < |data| < 0x1_0000
    ensures var r := Unframed(Frame(Encrypted(key, data)) + later + rest); (
              && r.Some? && r.value.rest == later + rest && |r.value.msg| == |data| && r.value.msg != []
              && Decrypted(key, r.value.msg) == data)
  {
    hide Encrypted, Decrypted, Frame, Unframed;
    assert Frame(Encrypted(key, data)) + later + rest == Frame(Encrypted(key, data)) + (later + rest);
    UnframedFrame(Encrypted(key, data), later + rest);
    DecryptEncrypt(key, data);
  }

  /** A message outside the bounds does not arrive: its length field reads as a shorter message. */
  lemma OversizedIsCut(data: seq<byte>)
    requires |data| >= 0x1_0000
    ensures Unframed(Frame(data)).Some? && |Unframed(Frame(data)).value.msg| == |data| % 0x1_0000 < |data|
  {
    var len := |data| % 0x1_0000;
    Get16Put16(len);
    assert Frame(data)[..2] == Put16(len);
  }

  /** The client's receiving loop on a socket: one frame at a time, decrypted in place. */
  method Receive(socket: Socket, ctx: KeyCtx, shapes: seq<Shape>) returns (msgs: Option<seq<seq<byte>>>)
    requires socket.Valid() && ctx.Valid() && ctx.State().Valid()
    modifies socket, ctx, ctx.key
    ensures match ReceivedAll(old(ctx.State()), shapes, old(socket.Stream()))
            case None => msgs == None
            case Some(o) => msgs == Some(o.msgs) && ctx.Valid() && ctx.State() == o.key && socket.Stream() == o.rest
  {
    hide Unframed, Joined, Decrypted, FirstDecrypted, Scrambled, After;
    var got: seq<seq<byte>> := [];
    ghost var whole := ReceivedAll(ctx.State(), shapes, socket.Stream());
    NothingYet(whole);
    for i := 0 to |shapes|
      invariant socket.Valid() && ctx.Valid() && ctx.State().Valid()
      invariant whole == WithFront(got, ReceivedAll(ctx.State(), shapes[i..], socket.Stream()))
    {
      assert shapes[i..][0] == shapes[i] && shapes[i..][1..] == shapes[i + 1..];
      ghost var key := ctx.State();
      if shapes[i].DoRekey? {
        ScrambledKey(key, shapes[i].v3key);
        ctx.Scramble(shapes[i].v3key);
      } else {
        var msg := socket.RecvMessage();
        if msg == None || msg.value == [] {
          return None;
        }
        var data := msg.value;
        if shapes[i].ReadFirst? {
          data := FirstDecrypted(data);
        } else {
          data := DecryptMessage(ctx, data);
        }
        FrontSnoc(got, data, ReceivedAll(ctx.State(), shapes[i + 1..], socket.Stream()));
        got := got + [data];
      }
    }
    assert shapes[|shapes|..] == [];
    assert got + [] == got;
    return Some(got);
  }

  /** `_v3_send`: encryption in place, then one frame. */
  method SendMessage(ctx: KeyCtx, msg: seq<byte>) returns (frame: seq<byte>)
    requires ctx.Valid() && ctx.State().Valid()
    modifies ctx`pos
    ensures ctx.Valid() && ctx.State() == After(old(ctx.State()), |msg|)
    ensures frame == Frame(Encrypted(old(ctx.State()), msg))
  {
    var data := new byte[|msg|](j requires 0 <= j < |msg| => msg[j]);
    assert data[..] == msg;
    ctx.Encrypt(data);
    return Frame(data[..]);
  }

  method DecryptMessage(ctx: KeyCtx, msg: seq<byte>) returns (plain: seq<byte>)
    requires ctx.Valid() && ctx.State().Valid()
    modifies ctx`pos
    ensures ctx.Valid() && ctx.State() == After(old(ctx.State()), |msg|)
    ensures plain == Decrypted(old(ctx.State()), msg)
  {
    var data := new byte[|msg|](j requires 0 <= j < |msg| => msg[j]);
    assert data[..] == msg;
    ctx.Decrypt(data);
    return data[..];
  }

  function WithFront(got: seq<seq<byte>>, o: Option<Outcome>): Option<Outcome> {
    if o.None? then None else Some(o.value.(msgs := got + o.value.msgs))
  }

  lemma NothingYet(o: Option<Outcome>)
    ensures WithFront([], o) == o
  {
    if o.Some? {
      assert [] + o.value.msgs == o.value.msgs;
    }
  }

  lemma FrontSnoc(got: seq<seq<byte>>, msg: seq<byte>, o: Option<Outcome>)
    ensures WithFront(got, Prepend(msg, o)) == WithFront(got + [msg], o)
  {
    if o.Some? {
      assert got + ([msg] + o.value.msgs) == got + [msg] + o.value.msgs;
    }
  }
}
