/**
 * Cutting resampled audio into packets of a whole number of codec frames, with a pipe holding what is left over
 * between calls.
 */
module PcmFramer {
  import opened Bytes

  /** A row of the codec table; `rate` in Hertz, `frameSize` in bytes of one-channel PCM. */
  datatype Codec = Codec(codec: nat, format: nat, frameSize: nat, rate: nat)

  /** The supported rows: GSM, the two Opus rows and Speex. */
  predicate InTable(c: Codec) {
    || (c.codec == 0 && c.frameSize == 640 && (c.format, c.rate) in {(0, 8000), (1, 11025), (2, 22050), (3, 44100)})
    || ((c.codec == 1 || c.codec == 2) && c.format == 0 && c.frameSize == 1920 && c.rate == 48000)
    || (c.codec == 3 && c.format < 11 && c.frameSize == 320 && c.rate == 8000)
    || (c.codec == 3 && 11 <= c.format < 22 && c.frameSize == 640 && c.rate == 16000)
    || (c.codec == 3 && 22 <= c.format < 33 && c.frameSize == 1280 && c.rate == 32000)
  }

  function MaxFrames(c: Codec): nat {
    if c.codec == 0 then
      if c.format == 0 then 3 else if c.format == 1 then 4 else if c.format == 2 then 7
      else if c.format == 3 then 15 else 0
    else if c.codec == 1 || c.codec == 2 then 1
    else if c.codec == 3 then 6
    else 0
  }

  function Channels(stereo: bool): nat {
    if stereo then 2 else 1
  }

  /** Bytes in one packet: never none, and never more than the event buffer holds. */
  function PacketSize(c: Codec, stereo: bool): (k: nat)
    requires InTable(c)
    ensures 0 < k <= 32768
  {
    MaxFrames(c) * (c.frameSize * Channels(stereo))
  }

  /** What goes down the event pipe; `sample` is the filled part of the event's 32768 byte buffer. */
  datatype Event = Audio(rate: nat, channels: nat, sample: seq<byte>) | TalkEnd

  // ----- the reference: whole packets from the front of a byte string, and the remainder

  function Whole<T>(data: seq<T>, k: nat): seq<seq<T>>
    requires 0 < k
  {
    if |data| < k then [] else [data[..k]] + Whole(data[k..], k)
  }

  function Rest<T>(data: seq<T>, k: nat): seq<T>
    requires 0 < k
  {
    if |data| < k then data else Rest(data[k..], k)
  }

  function Flat<T>(parts: seq<seq<T>>): seq<T> {
    if parts == [] then [] else parts[0] + Flat(parts[1..])
  }

  /** The packets one call sends, and the bytes it leaves: fresh output is cut only once the pipe is empty. */
  function Reframed<T>(pipe: seq<T>, output: seq<T>, k: nat): (seq<seq<T>>, seq<T>)
    requires 0 < k
  {
    if Rest(pipe, k) == [] then (Whole(pipe + output, k), Rest(pipe + output, k))
    else (Whole(pipe, k), Rest(pipe, k) + output)
  }

  function AsEvents(samples: seq<seq<byte>>, rate: nat, channels: nat): seq<Event> {
    seq(|samples|, i requires 0 <= i < |samples| => Audio(rate, channels, samples[i]))
  }

  /** The part of the output that one call has to write to the pipe. */
  function Written<T>(pipe: seq<T>, output: seq<T>, k: nat): seq<T>
    requires 0 < k
  {
    if Rest(pipe, k) == [] then Rest(pipe + output, k) else output
  }

  /** The one packet a stop makes of the pipe: zero-filled at the end, or cut short. */
  function LastPacket(pipe: seq<byte>, k: nat): (r: seq<byte>)
    ensures |r| == k
    ensures |pipe| <= k ==> pipe <= r
  {
    (pipe + Zeros(k))[..k]
  }

  // ----- facts about cutting

  lemma {:induction false} WholeAndRest<T>(data: seq<T>, k: nat)
    requires 0 < k
    ensures Flat(Whole(data, k)) + Rest(data, k) == data
    ensures forall p :: p in Whole(data, k) ==> |p| == k
    ensures |Rest(data, k)| == |data| % k
    decreases |data|
  {
    if k <= |data| {
      WholeAndRest(data[k..], k);
      assert data == data[..k] + data[k..];
      ModStep(|data|, k);
    }
  }

  lemma ModStep(x: nat, k: nat)
    requires 0 < k <= x
    ensures (x - k) % k == x % k
  {
    var q := (x - k) / k;
    assert x - k == q * k + (x - k) % k;
    assert x == (q + 1) * k + (x - k) % k;
    ModUnique(x, k, q + 1, (x - k) % k);
  }

  lemma ModUnique(x: nat, k: nat, q: int, r: nat)
    requires r < k && x == q * k + r
    ensures x % k == r
  {
    var d := x / k - q;
    assert x == (x / k) * k + x % k;
    assert d * k == r - x % k by {
      assert d * k == (x / k) * k - q * k;
    }
    MultipleIsFar(d, k);
  }

  lemma MultipleIsFar(d: int, k: int)
    requires 0 < k
    ensures 1 <= d ==> k <= d * k
    ensures d <= -1 ==> d * k <= -k
  {
    if 1 <= d {
      assert (d - 1) * k >= 0;
    } else if d <= -1 {
      assert (d + 1) * k <= 0;
    }
  }

  lemma WholeFirst<T>(data: seq<T>, more: seq<T>, k: nat)
    requires 0 < k <= |data|
    ensures Whole(data, k) == [data[..k]] + Whole(data[k..], k) && Rest(data, k) == Rest(data[k..], k)
    ensures Whole(data + more, k) == [data[..k]] + Whole(data[k..] + more, k)
    ensures Rest(data + more, k) == Rest(data[k..] + more, k)
  {
    assert (data + more)[..k] == data[..k] && (data + more)[k..] == data[k..] + more;
  }

  lemma {:induction false} FlatAppend<T>(a: seq<seq<T>>, b: seq<seq<T>>)
    ensures Flat(a + b) == Flat(a) + Flat(b)
  {
    if a == [] {
      assert a + b == b;
    } else {
      FlatAppend(a[1..], b);
      assert (a + b)[1..] == a[1..] + b;
      assert a[0] + (Flat(a[1..]) + Flat(b)) == (a[0] + Flat(a[1..])) + Flat(b);
    }
  }

  /** One packet leaves the pipe, or the fresh output when the pipe is empty; the rest of the call is unchanged. */
  lemma ReframedStep<T>(pipe: seq<T>, output: seq<T>, k: nat)
    requires 0 < k
    ensures k <= |pipe| ==>
              && Reframed(pipe, output, k).0 == [pipe[..k]] + Reframed(pipe[k..], output, k).0
              && Reframed(pipe, output, k).1 == Reframed(pipe[k..], output, k).1
              && Written(pipe, output, k) == Written(pipe[k..], output, k)
    ensures pipe == [] && k <= |output| ==>
              && Reframed([], output, k).0 == [output[..k]] + Reframed([], output[k..], k).0
              && Reframed([], output, k).1 == Reframed([], output[k..], k).1
              && Written([], output, k) == Written([], output[k..], k)
    ensures (if pipe == [] then |output| else |pipe|) < k ==>
              Reframed(pipe, output, k) == ([], pipe + output) && Written(pipe, output, k) == output
  {
    if k <= |pipe| {
      WholeFirst(pipe, output, k);
    }
    if pipe == [] && k <= |output| {
      WholeFirst(output, [], k);
      assert [] + output == output && [] + output[k..] == output[k..];
    }
  }

  lemma AsEventsSnoc(samples: seq<seq<byte>>, sample: seq<byte>, rate: nat, channels: nat)
    ensures AsEvents([], rate, channels) == []
    ensures AsEvents(samples + [sample], rate, channels)
        == AsEvents(samples, rate, channels) + [Audio(rate, channels, sample)]
  {
  }

  /** The loop test divides where the packet size multiplies. */
  lemma EnoughFrames(x: nat, frame: nat, frames: nat)
    requires 0 < frame
    ensures x / frame >= frames <==> x >= frames * frame
  {
    assert x == x / frame * frame + x % frame;
    MultipleIsFar(frames - x / frame, frame);
    assert (frames - x / frame) * frame == frames * frame - x / frame * frame;
    if x / frame >= frames {
      assert (x / frame - frames) * frame >= 0;
    }
  }

  // ----- the codec table

  /** A packet is made of whole frames. */
  lemma PacketIsFrames(c: Codec, stereo: bool)
    requires InTable(c)
    ensures 0 < c.frameSize * Channels(stereo)
    ensures PacketSize(c, stereo) % (c.frameSize * Channels(stereo)) == 0
  {
    ModUnique(PacketSize(c, stereo), c.frameSize * Channels(stereo), MaxFrames(c), 0);
  }

  /** The rows: four of GSM, two of Opus, and eleven of Speex at each of three rates. */
  lemma TableRows(format: nat)
    ensures InTable(Codec(0, 0, 640, 8000)) && InTable(Codec(0, 1, 640, 11025))
    ensures InTable(Codec(0, 2, 640, 22050)) && InTable(Codec(0, 3, 640, 44100))
    ensures InTable(Codec(1, 0, 1920, 48000)) && InTable(Codec(2, 0, 1920, 48000))
    ensures format < 11 ==> InTable(Codec(3, format, 320, 8000))
    ensures format < 11 ==> InTable(Codec(3, format + 11, 640, 16000))
    ensures format < 11 ==> InTable(Codec(3, format + 22, 1280, 32000))
  {
  }

  /** The bytes of a packet for one channel at each sample rate; that is 20 milliseconds of Opus and 120 of Speex. */
  lemma PacketTable(c: Codec)
    requires InTable(c)
    ensures c.rate == 8000 ==> PacketSize(c, false) == 1920
    ensures c.rate == 11025 ==> PacketSize(c, false) == 2560
    ensures c.rate == 22050 ==> PacketSize(c, false) == 4480
    ensures c.rate == 44100 ==> PacketSize(c, false) == 9600
    ensures c.rate == 48000 ==> PacketSize(c, false) == 1920
    ensures c.rate == 16000 ==> PacketSize(c, false) == 3840
    ensures c.rate == 32000 ==> PacketSize(c, false) == 7680
    ensures PacketSize(c, true) == 2 * PacketSize(c, false)
    ensures c.codec == 1 || c.codec == 2 ==> PacketSize(c, false) * 1000 == 20 * 2 * c.rate
    ensures c.codec == 3 ==> PacketSize(c, false) * 1000 == 120 * 2 * c.rate
  {
  }

  lemma PacketFactors(c: Codec, channels: nat)
    requires InTable(c) && (channels == 1 || channels == 2)
    ensures PacketSize(c, channels == 2) == MaxFrames(c) * (c.frameSize * channels)
  {
  }

  /** The resampler is remade when a rate changes and not when the codec does: two codecs of one rate cut alike. */
  lemma SameRateSamePacket(c: Codec, d: Codec, stereo: bool)
    requires InTable(c) && InTable(d) && c.rate == d.rate
    ensures PacketSize(c, stereo) == PacketSize(d, stereo)
  {
    assert MaxFrames(c) * c.frameSize == MaxFrames(d) * d.frameSize;
  }

  // ----- the code

  /** What the resampler did with the input: no state could be made, an error, or these bytes. */
  datatype Resampled = NotCreated | Rejected | Output(data: seq<byte>)

  /** The input already has the codec's rate and is a whole number of frames. */
  predicate Direct(codec: Codec, rate: nat, pcm: seq<byte>, stereo: bool)
    requires InTable(codec)
  {
    PacketIsFrames(codec, stereo);
    rate == codec.rate && |pcm| % (codec.frameSize * Channels(stereo)) == 0
  }

  /** Whatever goes out is at the codec's rate, in as many channels as asked for, and a whole number of frames. */
  predicate Framed(e: Event, codec: Codec, stereo: bool)
    requires InTable(codec)
  {
    PacketIsFrames(codec, stereo);
    e.Audio? && e.rate == codec.rate && e.channels == Channels(stereo)
    && |e.sample| % (codec.frameSize * Channels(stereo)) == 0
  }

  lemma PacketsFramed(pipe: seq<byte>, output: seq<byte>, codec: Codec, stereo: bool)
    requires InTable(codec)
    ensures var es := AsEvents(Reframed(pipe, output, PacketSize(codec, stereo)).0, codec.rate, Channels(stereo));
            forall i :: 0 <= i < |es| ==> Framed(es[i], codec, stereo)
  {
    hide Whole, Rest, PacketSize, InTable;
    var k := PacketSize(codec, stereo);
    PacketIsFrames(codec, stereo);
    WholeAndRest(pipe, k);
    WholeAndRest(pipe + output, k);
    var packets := Reframed(pipe, output, k).0;
    assert forall i :: 0 <= i < |packets| ==> packets[i] in packets;
  }

  class Framer {
    var resampler: bool
    var inRate: nat
    var outRate: nat
    var channels: nat
    var open: bool
    var pipe: seq<byte>
    var pcmWrite: nat
    var events: seq<Event>

    ghost predicate Valid()
      reads this
    {
      pcmWrite == |pipe| && (!open ==> pipe == []) && (open ==> channels == 1 || channels == 2)
    }

    constructor ()
      ensures Valid() && pipe == [] && events == [] && !open
    {
      resampler, inRate, outRate, channels, open, pipe, pcmWrite, events := false, 0, 0, 0, false, [], 0, [];
    }

    /** The pipe survives only if the resampler is still the one this call needs. */
    ghost function Kept(codec: Codec, rate: nat, stereo: bool): seq<byte>
      reads this
    {
      if resampler && rate == inRate && codec.rate == outRate && channels == Channels(stereo) then pipe else []
    }

    method SendAudio(loggedIn: bool, codec: Codec, rate: nat, pcm: seq<byte>, stereo: bool, made: Resampled,
                     writable: bool)
      returns (accepted: nat)
      requires Valid() && InTable(codec)
      requires Direct(codec, rate, pcm, stereo) ==> |pcm| <= 32768
      modifies this
      ensures Valid()
      ensures !loggedIn ==> accepted == 0 && events == old(events) && pipe == old(pipe)
      ensures loggedIn && Direct(codec, rate, pcm, stereo) ==>
                && accepted == rate && pipe == old(pipe)
                && events == old(events) + [Audio(rate, Channels(stereo), pcm)]
      ensures !loggedIn || Direct(codec, rate, pcm, stereo) ==>
                open == old(open) && outRate == old(outRate) && channels == old(channels)
      ensures loggedIn && !Direct(codec, rate, pcm, stereo) && !made.Output? ==>
                accepted == 0 && events == old(events) && pipe == old(Kept(codec, rate, stereo))
      ensures (
        var k := PacketSize(codec, stereo);
        var kept := old(Kept(codec, rate, stereo));
        loggedIn && !Direct(codec, rate, pcm, stereo) && made.Output? ==> (
          var cut := Reframed(kept, made.data, k);
          var lost := !writable && Written(kept, made.data, k) != [];
          && events == old(events) + AsEvents(cut.0, codec.rate, Channels(stereo))
          && pipe == (if lost then [] else cut.1)
          && accepted == (if lost then 0 else rate)))
      ensures forall i :: |old(events)| <= i < |events| ==> Framed(events[i], codec, stereo)
    {
      hide Reframed, Written, Rest, AsEvents, MaxFrames, InTable, PacketSize;
      if !loggedIn {
        return 0;
      }
      PacketIsFrames(codec, stereo);
      if rate != codec.rate || |pcm| % (codec.frameSize * Channels(stereo)) != 0 {
        Prepare(codec, rate, Channels(stereo), made.NotCreated?);
        if !made.Output? {
          return 0;
        }
        var sent := Reframe(codec, made.data, writable);
        PacketsFramed(old(Kept(codec, rate, stereo)), made.data, codec, stereo);
        return if sent then rate else 0;
      }
      events := events + [Audio(rate, Channels(stereo), pcm)];
      return rate;
    }

    /** Remakes the resampler, dropping the pipe, unless it already serves these rates and channels. */
    method Prepare(codec: Codec, rate: nat, ch: nat, failed: bool)
      requires Valid() && (ch == 1 || ch == 2)
      modifies this
      ensures Valid() && events == old(events)
      ensures outRate == codec.rate && channels == ch
      ensures pipe == old(Kept(codec, rate, ch == 2))
    {
      if !resampler || rate != inRate || codec.rate != outRate || ch != channels {
        inRate, outRate, channels := rate, codec.rate, ch;
        if open {
          open, pipe, pcmWrite := false, [], 0;
        }
        resampler := !failed;
      }
    }

    /** The packet loop and the write that follows it. */
    method Reframe(codec: Codec, output: seq<byte>, writable: bool) returns (sent: bool)
      requires Valid() && InTable(codec) && (channels == 1 || channels == 2)
      modifies this
      ensures Valid() && outRate == old(outRate) && channels == old(channels)
      ensures (
        var k := PacketSize(codec, channels == 2);
        var cut := Reframed(old(pipe), output, k);
        && sent == (writable || Written(old(pipe), output, k) == [])
        && events == old(events) + AsEvents(cut.0, outRate, channels)
        && pipe == (if sent then cut.1 else []))
    {
      hide Reframed, Written, Rest, AsEvents, PacketSize;
      PacketIsFrames(codec, channels == 2);
      var frame, frames := codec.frameSize * channels, MaxFrames(codec);
      ghost var k := PacketSize(codec, channels == 2);
      ghost var done: seq<seq<byte>> := [];
      var buf := output;
      assert frames * frame == k by {
        PacketFactors(codec, channels);
      }
      AsEventsSnoc([], [], outRate, channels);
      EnoughFrames(if pcmWrite == 0 then |buf| else pcmWrite, frame, frames);
      while (if pcmWrite == 0 then |buf| else pcmWrite) / frame >= frames
        invariant Valid() && outRate == old(outRate) && channels == old(channels)
        invariant (if pcmWrite == 0 then |buf| else pcmWrite) / frame >= frames
                  <==> k <= (if pcmWrite == 0 then |buf| else pcmWrite)
        invariant Reframed(old(pipe), output, k).0 == done + Reframed(pipe, buf, k).0
        invariant Reframed(old(pipe), output, k).1 == Reframed(pipe, buf, k).1
        invariant Written(old(pipe), output, k) == Written(pipe, buf, k)
        invariant events == old(events) + AsEvents(done, outRate, channels)
        decreases |pipe| + |buf|
      {
        var size := frames * frame;
        ReframedStep(pipe, buf, k);
        var sample;
        if pcmWrite == 0 {
          sample, buf := buf[..size], buf[size..];
        } else {
          sample, pipe := pipe[..size], pipe[size..];
          pcmWrite := pcmWrite - size;
        }
        events := events + [Audio(outRate, channels, sample)];
        AsEventsSnoc(done, sample, outRate, channels);
        done := done + [sample];
        EnoughFrames(if pcmWrite == 0 then |buf| else pcmWrite, frame, frames);
      }
      ReframedStep(pipe, buf, k);
      assert Written(old(pipe), output, k) == buf;
      assert Reframed(old(pipe), output, k).0 == done && Reframed(old(pipe), output, k).1 == pipe + buf;
      if buf != [] {
        if !writable {
          open, pipe, pcmWrite := false, [], 0;
          return false;
        }
        open, pipe, pcmWrite := true, pipe + buf, pcmWrite + |buf|;
      }
      return true;
    }

    /** What is left in the pipe goes out as one packet, if the codec still has the rate the pipe was filled at. */
    method StopAudio(loggedIn: bool, codec: Codec)
      requires Valid() && InTable(codec)
      modifies this
      ensures Valid() && !open && pipe == []
      ensures !loggedIn ==> events == old(events)
      ensures (
        var left, k := old(pipe), PacketSize(codec, old(channels) == 2);
        loggedIn ==>
          if left != [] && |left| <= 65535 && old(outRate) == codec.rate
          then events == old(events) + [Audio(codec.rate, old(channels), LastPacket(left, k)), TalkEnd]
          else events == old(events) + [TalkEnd])
    {
      hide PacketSize, LastPacket;
      if open {
        if outRate == codec.rate && pcmWrite != 0 && pcmWrite <= 65535 {
          var buf := LastPacket(pipe, PacketSize(codec, channels == 2));
          pipe, pcmWrite := [], 0;
          PacketIsFrames(codec, channels == 2);
          var _ := SendAudio(loggedIn, codec, outRate, buf, channels == 2, Rejected, true);
        }
        resampler, inRate, outRate, channels, open, pipe, pcmWrite := false, 0, 0, 0, false, [], 0;
      }
      if loggedIn {
        events := events + [TalkEnd];
      }
    }
  }

  // ----- whole talk spurts

  /** The packets of a run of calls and what it leaves in the pipe. */
  function Session<T>(pipe: seq<T>, outputs: seq<seq<T>>, k: nat): (seq<seq<T>>, seq<T>)
    requires 0 < k
    decreases |outputs|
  {
    if outputs == [] then ([], pipe)
    else
      var (sent, left) := Reframed(pipe, outputs[0], k);
      var (more, end) := Session(left, outputs[1..], k);
      (sent + more, end)
  }

  /** One call: nothing is lost or reordered, packets have one size, and less than a packet stays besides the output. */
  lemma ReframedConserves<T>(pipe: seq<T>, output: seq<T>, k: nat)
    requires 0 < k
    ensures (
      var (sent, left) := Reframed(pipe, output, k);
      && Flat(sent) + left == pipe + output
      && (forall p :: p in sent ==> |p| == k)
      && |left| == (if |pipe| % k == 0 then (|pipe| + |output|) % k else |pipe| % k + |output|))
  {
    hide Whole, Rest, Flat;
    WholeAndRest(pipe, k);
    WholeAndRest(pipe + output, k);
    if Rest(pipe, k) != [] {
      assert Flat(Whole(pipe, k)) + (Rest(pipe, k) + output) == (Flat(Whole(pipe, k)) + Rest(pipe, k)) + output;
    }
  }

  /** Over any run: packets and pipe together are the resampler's outputs in order, and every packet is full. */
  lemma {:induction false} SessionConserves<T>(pipe: seq<T>, outputs: seq<seq<T>>, k: nat)
    requires 0 < k
    ensures (
      var (sent, left) := Session(pipe, outputs, k);
      && Flat(sent) + left == pipe + Flat(outputs)
      && (forall p :: p in sent ==> |p| == k))
    decreases |outputs|
  {
    hide Reframed;
    if outputs != [] {
      var (sent, left) := Reframed(pipe, outputs[0], k);
      var (more, end) := Session(left, outputs[1..], k);
      ReframedConserves(pipe, outputs[0], k);
      SessionConserves(left, outputs[1..], k);
      FlatAppend(sent, more);
      Regroup(Flat(sent), Flat(more), end, left, Flat(outputs[1..]), pipe, outputs[0]);
    }
  }

  lemma Regroup<T>(a: seq<T>, b: seq<T>, end: seq<T>, left: seq<T>, rest: seq<T>, pipe: seq<T>, out: seq<T>)
    requires b + end == left + rest && a + left == pipe + out
    ensures (a + b) + end == pipe + (out + rest)
  {
    assert (a + b) + end == a + (b + end);
    assert a + (left + rest) == (a + left) + rest;
    assert (pipe + out) + rest == pipe + (out + rest);
  }

  lemma {:induction false} FullPackets<T>(sent: seq<seq<T>>, k: nat)
    requires 0 < k && forall p :: p in sent ==> |p| == k
    ensures |Flat(sent)| % k == 0
    decreases |sent|
  {
    if sent != [] {
      FullPackets(sent[1..], k);
      assert |Flat(sent)| - k == |Flat(sent[1..])|;
      ModStep(|Flat(sent)|, k);
    }
  }

  lemma {:induction false} SessionSnoc<T>(pipe: seq<T>, outputs: seq<seq<T>>, last: seq<T>, k: nat)
    requires 0 < k
    ensures (
      var (sent, left) := Session(pipe, outputs, k);
      Session(pipe, outputs + [last], k) == (sent + Reframed(left, last, k).0, Reframed(left, last, k).1))
    decreases |outputs|
  {
    hide Reframed;
    if outputs == [] {
      assert outputs + [last] == [last] && [last][1..] == [];
      assert Reframed(pipe, last, k).0 + [] == Reframed(pipe, last, k).0 == [] + Reframed(pipe, last, k).0;
    } else {
      var (sent, left) := Reframed(pipe, outputs[0], k);
      SessionSnoc(left, outputs[1..], last, k);
      assert (outputs + [last])[1..] == outputs[1..] + [last];
      var (more, end) := Session(left, outputs[1..], k);
      assert sent + (more + Reframed(end, last, k).0) == (sent + more) + Reframed(end, last, k).0;
    }
  }

  /** What waits in the pipe after a run depends on lengths alone, and is less than a packet plus the last output. */
  lemma PendingAfter<T>(outputs: seq<seq<T>>, last: seq<T>, k: nat)
    requires 0 < k
    ensures (
      var before := |Flat(outputs)|;
      |Session([], outputs + [last], k).1| == (if before % k == 0 then |last| % k else before % k + |last|))
    ensures |Session([], outputs + [last], k).1| < k + |last|
  {
    hide Reframed, Flat, Session;
    SessionSnoc([], outputs, last, k);
    SessionConserves([], outputs, k);
    var (sent, left) := Session([], outputs, k);
    assert Flat(sent) + left == Flat(outputs);
    FullPackets(sent, k);
    ModOfSum(|Flat(sent)|, |left|, k);
    ReframedConserves(left, last, k);
    if |left| % k == 0 {
      ModOfSum(|left|, |last|, k);
    }
  }

  lemma ModOfSum(x: nat, y: nat, k: nat)
    requires 0 < k && x % k == 0
    ensures (x + y) % k == y % k
  {
    assert x == x / k * k && y == y / k * k + y % k;
    assert x + y == (x / k + y / k) * k + y % k;
    ModUnique(x + y, k, x / k + y / k, y % k);
  }

  /**
   * A stop delivers every byte of the talk spurt exactly when, before the last call, the total was a whole number of
   * packets or the last output still fits the packet that had been started: a stop sends one packet, never two.
   */
  lemma StopKeepsAllIff(outputs: seq<seq<byte>>, last: seq<byte>, k: nat)
    requires 0 < k <= 32768
    ensures (
      var before := |Flat(outputs)|;
      var (sent, left) := Session([], outputs + [last], k);
      var stop := if 0 < |left| <= 65535 then [LastPacket(left, k)] else [];
      Flat(outputs + [last]) <= Flat(sent + stop) <==> before % k == 0 || before % k + |last| <= k)
  {
    hide Reframed, Session, LastPacket;
    PendingAfter(outputs, last, k);
    SessionConserves([], outputs + [last], k);
    var (sent, left) := Session([], outputs + [last], k);
    var stop := if 0 < |left| <= 65535 then [LastPacket(left, k)] else [];
    FlatAppend(sent, stop);
    assert Flat(stop) == if stop == [] then [] else stop[0] + Flat([]);
    assert Flat(outputs + [last]) == Flat(sent) + left;
    if |left| <= k {
      assert left <= Flat(stop);
      assert Flat(sent) + left <= Flat(sent) + Flat(stop);
    }
  }
}
