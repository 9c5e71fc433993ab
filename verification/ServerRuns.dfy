/** Whole transfers against a server that keeps every value it is sent and answers with what it keeps. */
module ServerRuns {
  import opened Bytes
  import opened Decimal
  import opened Channels
  import opened ChannelPath
  import opened ChannelRoundTrip
  import opened ServerSettings
  import opened ServerTransfer

  type Store = map<u16, seq<byte>>

  /** A sent value is kept and acknowledged; a request is answered with the kept value. */
  function Answer(store: Store, m: Message): (Store, Message) {
    if m.subtype == SEND then (store[m.property := m.value], m)
    else (store, m.(value := if m.property in store then store[m.property] else []))
  }

  /** The transfer that begins with this message: both take turns until the client asks for nothing more. */
  function Serve(c: State, store: Store, m: Message, list: seq<Channel>, d: nat): (State, Store)
    requires m.tid == c.tid && (m.subtype == RECV || m.subtype == SEND) && m.property <= FINISH
    requires m.subtype == SEND ==> Ends(list, c.prop.inactiveChannel, d)
    decreases FINISH - m.property
  {
    var (kept, reply) := Answer(store, m);
    var next := React(c, reply, list, d);
    if |next.events| > |c.events| then (next, kept)
    else Serve(next, kept, next.out[|next.out| - 1], list, d)
  }

  // ----- the order of a transfer

  /** Asking and sending go to the next live property, each the least one above. */
  lemma NextIsLeast(p: u16)
    requires Live(p)
    ensures p < Asked(p) && (Live(Asked(p)) || Asked(p) == FINISH)
    ensures forall q :: p < q < Asked(p) ==> !Live(q)
    ensures Due(p) == if Asked(p) == FINISH then FINISH + 1 else Asked(p)
  {
  }

  // ----- sending

  function Packet(s: Settings, tid: u16, p: u16, list: seq<Channel>, d: nat): Message
    requires Ends(list, s.inactiveChannel, d)
  {
    Message(SEND, p, tid, Text(s, p, list, d))
  }

  /** The client's messages after the one for this property, with the closing one. */
  function Following(s: Settings, tid: u16, p: u16, list: seq<Channel>, d: nat): seq<Message>
    requires Live(p) && Ends(list, s.inactiveChannel, d)
    decreases FINISH - p
  {
    if Due(p) <= FINISH then [Packet(s, tid, Due(p), list, d)] + Following(s, tid, Due(p), list, d)
    else [Message(SEND_DONE, 0, tid, [])]
  }

  lemma FollowingStep(s: Settings, tid: u16, p: u16, list: seq<Channel>, d: nat)
    requires Live(p) && Ends(list, s.inactiveChannel, d)
    ensures Due(p) <= FINISH ==>
              Live(Due(p))
              && Following(s, tid, p, list, d) == [Packet(s, tid, Due(p), list, d)] + Following(s, tid, Due(p), list, d)
    ensures Due(p) > FINISH ==> Following(s, tid, p, list, d) == [Message(SEND_DONE, 0, tid, [])]
  {
    hide Packet, Ends;
  }

  predicate Holds(store: Store, s: Settings, p: u16, list: seq<Channel>, d: nat)
    requires Ends(list, s.inactiveChannel, d)
  {
    p in store && store[p] == Text(s, p, list, d)
  }

  lemma ServeSend(c: State, store: Store, p: u16, list: seq<Channel>, d: nat)
    requires Live(p) && Ends(list, c.prop.inactiveChannel, d)
    ensures (
      var m := Packet(c.prop, c.tid, p, list, d);
      Serve(c, store, m, list, d)
      == if Due(p) <= FINISH then
           var more := Packet(c.prop, c.tid, Due(p), list, d);
           Serve(c.(out := c.out + [more]), store[p := m.value], more, list, d)
         else
           (c.(out := c.out + [Message(SEND_DONE, 0, c.tid, [])], events := c.events + [Sent(c.prop)]),
            store[p := m.value]))
  {
    hide Text, Ends;
    NextIsLeast(p);
    var m := Packet(c.prop, c.tid, p, list, d);
    assert Answer(store, m) == (store[p := m.value], m);
  }

  /** Every live property from p on is kept as it is printed. */
  ghost predicate Stored(store: Store, s: Settings, p: u16, list: seq<Channel>, d: nat)
    requires Ends(list, s.inactiveChannel, d)
  {
    forall q: u16 :: Live(q) && p <= q ==> Holds(store, s, q, list, d)
  }

  /** What was kept of the properties below p stays. */
  ghost predicate Keeps(before: Store, after: Store, p: u16) {
    forall q: u16 :: q < p && q in before ==> q in after && after[q] == before[q]
  }

  lemma StoredOne(store: Store, s: Settings, p: u16, list: seq<Channel>, d: nat)
    requires Live(p) && Ends(list, s.inactiveChannel, d) && Due(p) > FINISH
    ensures var kept := store[p := Text(s, p, list, d)]; Stored(kept, s, p, list, d) && Keeps(store, kept, p)
  {
    hide Text, Ends;
    NextIsLeast(p);
  }

  lemma StoredMore(store: Store, kept: Store, s: Settings, p: u16, list: seq<Channel>, d: nat)
    requires Live(p) && Ends(list, s.inactiveChannel, d) && Due(p) <= FINISH
    requires Stored(kept, s, Due(p), list, d) && Keeps(store[p := Text(s, p, list, d)], kept, Due(p))
    ensures Stored(kept, s, p, list, d) && Keeps(store, kept, p)
  {
    hide Text, Ends, Due, Asked, Live;
    NextIsLeast(p);
  }

  /** A send run ends, with its messages and what the server then keeps. */
  lemma {:induction false} SaveFrom(c: State, store: Store, p: u16, list: seq<Channel>, d: nat)
    requires Live(p) && Ends(list, c.prop.inactiveChannel, d)
    ensures (
      var (end, kept) := Serve(c, store, Packet(c.prop, c.tid, p, list, d), list, d);
      && end == c.(out := c.out + Following(c.prop, c.tid, p, list, d), events := c.events + [Sent(c.prop)])
      && Stored(kept, c.prop, p, list, d) && Keeps(store, kept, p))
    decreases FINISH - p
  {
    hide Text, Ends, Serve, Due, Asked, Live, Stored, Keeps, Following;
    NextIsLeast(p);
    ServeSend(c, store, p, list, d);
    FollowingStep(c.prop, c.tid, p, list, d);
    var m := Packet(c.prop, c.tid, p, list, d);
    if Due(p) <= FINISH {
      var more := Packet(c.prop, c.tid, Due(p), list, d);
      var next := c.(out := c.out + [more]);
      SaveFrom(next, store[p := m.value], Due(p), list, d);
      assert (c.out + [more]) + Following(c.prop, c.tid, Due(p), list, d)
          == c.out + ([more] + Following(c.prop, c.tid, Due(p), list, d));
      StoredMore(store, Serve(next, store[p := m.value], more, list, d).1, c.prop, p, list, d);
    } else {
      StoredOne(store, c.prop, p, list, d);
    }
  }

  /** After the message for p come messages for live properties above it, in increasing order, and the closing one. */
  lemma {:induction false} SendsInOrder(s: Settings, tid: u16, p: u16, list: seq<Channel>, d: nat)
    requires Live(p) && Ends(list, s.inactiveChannel, d)
    ensures (
      var f := Following(s, tid, p, list, d);
      var n := |f| - 1;
      && n >= 0 && f[n] == Message(3, 0, tid, [])
      && (forall i :: 0 <= i < n ==>
            Live(f[i].property) && p < f[i].property && f[i] == Packet(s, tid, f[i].property, list, d)
            && f[i].subtype == 1)
      && (forall i, j :: 0 <= i < j < n ==> f[i].property < f[j].property))
    decreases FINISH - p
  {
    hide Text, Ends, Due, Asked;
    NextIsLeast(p);
    if Due(p) <= FINISH {
      SendsInOrder(s, tid, Due(p), list, d);
    }
  }

  predicate Among(f: seq<Message>, q: u16) {
    exists i :: 0 <= i < |f| && f[i].subtype == SEND && f[i].property == q
  }

  /** And every live property above p is among them. */
  lemma {:induction false} SendsAll(s: Settings, tid: u16, p: u16, q: u16, list: seq<Channel>, d: nat)
    requires Live(p) && Live(q) && p < q && Ends(list, s.inactiveChannel, d)
    ensures Among(Following(s, tid, p, list, d), q)
    decreases FINISH - p
  {
    hide Text, Ends, Due, Asked;
    NextIsLeast(p);
    var f := Following(s, tid, p, list, d);
    var g := Following(s, tid, Due(p), list, d);
    assert f == [Packet(s, tid, Due(p), list, d)] + g;
    if q == Due(p) {
      assert f[0].property == q;
    } else {
      SendsAll(s, tid, Due(p), q, list, d);
      var i :| 0 <= i < |g| && g[i].subtype == SEND && g[i].property == q;
      assert f[i + 1] == g[i];
    }
  }

  // ----- receiving

  function ReadChannel(s: Settings, list: seq<Channel>, d: nat): u16
    requires Ends(list, s.inactiveChannel, d)
  {
    IdOf(list, PathText(s.inactiveChannel, list, d))
  }

  /** The two settings agree below this property, the channel up to printing and looking up. */
  predicate Known(a: Settings, s: Settings, p: u16, list: seq<Channel>, d: nat)
    requires Ends(list, s.inactiveChannel, d)
  {
    Agree(a, s, p) && (0x0D < p ==> a.inactiveChannel == ReadChannel(s, list, d))
  }

  lemma ReadsBack()
    ensures forall n: u32 :: Atoi(Digits(n)) == n
    ensures forall before, f :: Parsed(before, FilterText(f)) == f
    ensures forall t: text :: Clip255(t) == t
  {
    forall n: u32
      ensures Atoi(Digits(n)) == n
    {
      AtoiDigits(n);
    }
    forall before, f
      ensures Parsed(before, FilterText(f)) == f
    {
      FilterRoundTrip(before, f);
    }
    forall t: text
      ensures Clip255(t) == t
    {
      CStrWhole(t);
    }
  }

  lemma KnownStepLow(a: Settings, s: Settings, p: u16, list: seq<Channel>, d: nat)
    requires Live(p) && p <= 0x0B && Ends(list, s.inactiveChannel, d) && Known(a, s, p, list, d)
    ensures Known(Put(a, p, Text(s, p, list, d), list), s, Asked(p), list, d)
  {
    hide IdOf, Ends, PathText, Atoi, Digits, Parsed, FilterText, Clip255, To8;
    ReadsBack();
    SmallBytes();
  }

  lemma KnownStepMiddle(a: Settings, s: Settings, p: u16, list: seq<Channel>, d: nat)
    requires Live(p) && 0x0C <= p <= 0x12 && Ends(list, s.inactiveChannel, d) && Known(a, s, p, list, d)
    ensures Known(Put(a, p, Text(s, p, list, d), list), s, Asked(p), list, d)
  {
    hide IdOf, Ends, PathText, Atoi, Digits, Parsed, FilterText, Clip255, To8;
    ReadsBack();
    SmallBytes();
  }

  lemma KnownStepHigh(a: Settings, s: Settings, p: u16, list: seq<Channel>, d: nat)
    requires Live(p) && 0x13 <= p && Ends(list, s.inactiveChannel, d) && Known(a, s, p, list, d)
    ensures Known(Put(a, p, Text(s, p, list, d), list), s, Asked(p), list, d)
  {
    hide IdOf, Ends, PathText, Atoi, Digits, Parsed, FilterText, Clip255, To8;
    ReadsBack();
    SmallBytes();
  }

  /** Receiving the text of one property makes the settings agree up to the next. */
  lemma KnownStep(a: Settings, s: Settings, p: u16, list: seq<Channel>, d: nat)
    requires Live(p) && Ends(list, s.inactiveChannel, d) && Known(a, s, p, list, d)
    ensures Known(Put(a, p, Text(s, p, list, d), list), s, Asked(p), list, d)
  {
    hide Known, Put, Text, Asked, Ends;
    if p <= 0x0B {
      KnownStepLow(a, s, p, list, d);
    } else if p <= 0x12 {
      KnownStepMiddle(a, s, p, list, d);
    } else {
      KnownStepHigh(a, s, p, list, d);
    }
  }

  lemma SmallBytes()
    ensures forall x: byte :: To8(x) == x
  {
  }

  lemma ServeRecv(c: State, store: Store, p: u16, list: seq<Channel>, d: nat)
    requires p <= FINISH
    ensures (
      var prop := Put(c.prop, p, if p in store then store[p] else [], list);
      Serve(c, store, Message(RECV, p, c.tid, []), list, d)
      == if Asked(p) <= FINISH then
           var more := Message(RECV, Asked(p), c.tid, []);
           Serve(c.(prop := prop, out := c.out + [more]), store, more, list, d)
         else (c.(prop := prop, events := c.events + [Received(prop)]), store))
  {
    hide Put, Ends;
  }

  /** The requests after the one for this property. */
  function Requests(tid: u16, p: u16): seq<Message>
    requires p <= FINISH
    decreases FINISH - p
  {
    if Asked(p) <= FINISH then [Message(RECV, Asked(p), tid, [])] + Requests(tid, Asked(p)) else []
  }

  /** What a receive run asks for: the opening, property 1, the live properties and the end. */
  predicate Wanted(p: u16) {
    p <= 1 || Live(p) || p == FINISH
  }

  predicate Requested(ms: seq<Message>, tid: u16, q: u16) {
    Message(0, q, tid, []) in ms
  }

  lemma AskedIsNext(p: u16)
    requires Wanted(p)
    ensures p < FINISH ==> p < Asked(p) <= FINISH && Wanted(Asked(p))
    ensures p == FINISH ==> Asked(p) > FINISH
    ensures forall q :: p < q < Asked(p) && q <= FINISH ==> !Wanted(q)
  {
  }

  /** Every wanted property above p, once each, in increasing order, and nothing else. */
  ghost predicate AsksFor(ms: seq<Message>, tid: u16, p: u16) {
    && (forall i :: 0 <= i < |ms| ==>
          p < ms[i].property && Wanted(ms[i].property) && ms[i] == Message(0, ms[i].property, tid, []))
    && (forall i, j :: 0 <= i < j < |ms| ==> ms[i].property < ms[j].property)
    && (forall q: u16 :: Wanted(q) && p < q ==> Requested(ms, tid, q))
  }

  lemma AsksNothing(tid: u16, p: u16)
    requires forall q: u16 :: Wanted(q) ==> q <= p
    ensures AsksFor([], tid, p)
  {
    hide Wanted;
  }

  lemma AsksCons(ms: seq<Message>, tid: u16, p: u16, q: u16)
    requires AsksFor(ms, tid, q) && p < q && Wanted(q)
    requires forall x: u16 :: p < x < q ==> !Wanted(x)
    ensures AsksFor([Message(RECV, q, tid, [])] + ms, tid, p)
  {
    hide Wanted;
    var more := [Message(RECV, q, tid, [])] + ms;
    forall x: u16 | Wanted(x) && p < x
      ensures Requested(more, tid, x)
    {
      if x == q {
        assert more[0] == Message(RECV, q, tid, []);
      } else {
        assert Requested(ms, tid, x);
      }
    }
  }

  /** A receive run asks for the wanted properties in order. */
  lemma {:induction false} AsksInOrder(tid: u16, p: u16)
    requires Wanted(p)
    ensures AsksFor(Requests(tid, p), tid, p)
    decreases FINISH - p
  {
    hide Asked, Wanted, AsksFor;
    WantedLow(p);
    AskedIsNext(p);
    if Asked(p) <= FINISH {
      AsksInOrder(tid, Asked(p));
      AsksCons(Requests(tid, Asked(p)), tid, p, Asked(p));
    } else {
      forall q: u16 | Wanted(q)
        ensures q <= p
      {
        WantedLow(q);
      }
      AsksNothing(tid, p);
    }
  }

  lemma WantedLow(p: u16)
    requires Wanted(p)
    ensures p <= FINISH
  {
  }

  lemma {:induction false} ReadFrom(c: State, store: Store, s: Settings, p: u16, list: seq<Channel>, d: nat)
    requires Live(p) || p == FINISH
    requires Ends(list, s.inactiveChannel, d) && Known(c.prop, s, p, list, d)
    requires forall q :: Live(q) ==> Holds(store, s, q, list, d)
    ensures (
      var (end, kept) := Serve(c, store, Message(RECV, p, c.tid, []), list, d);
      && kept == store && end.tid == c.tid
      && Known(end.prop, s, FINISH, list, d) && end.events == c.events + [Received(end.prop)]
      && end.out == c.out + Requests(c.tid, p))
    decreases FINISH - p
  {
    hide Text, Ends, Serve, Known, Put;
    ServeRecv(c, store, p, list, d);
    if Live(p) {
      NextIsLeast(p);
      KnownStep(c.prop, s, p, list, d);
      assert Holds(store, s, p, list, d);
      var more := Message(RECV, Asked(p), c.tid, []);
      ReadFrom(c.(prop := Put(c.prop, p, store[p], list), out := c.out + [more]), store, s, Asked(p), list, d);
      assert c.out + [more] + Requests(c.tid, Asked(p)) == c.out + Requests(c.tid, p);
    } else {
      PutFinish(c.prop, if p in store then store[p] else [], list);
    }
  }

  lemma PutFinish(s: Settings, value: seq<byte>, list: seq<Channel>)
    ensures Put(s, FINISH, value, list) == s && Put(s, 1, value, list) == s
  {
    hide Atoi, IdOf, Clip255, Parsed;
  }

  lemma RequestsStep(tid: u16, p: u16)
    requires p <= 1
    ensures Requests(tid, p) == [Message(RECV, p + 1, tid, [])] + Requests(tid, p + 1)
  {
    hide Live;
    assert Asked(p) == p + 1;
  }

  lemma FirstRequests(out: seq<Message>, tid: u16)
    ensures out + [Message(RECV, 1, tid, [])] + [Message(RECV, 2, tid, [])] + Requests(tid, 2) == out + Requests(tid, 0)
  {
    hide Requests, Asked;
    RequestsStep(tid, 0);
    RequestsStep(tid, 1);
    Regroup(out, [Message(RECV, 1, tid, [])], [Message(RECV, 2, tid, [])], Requests(tid, 2));
  }

  lemma Regroup<T>(a: seq<T>, b: seq<T>, c: seq<T>, d: seq<T>)
    ensures a + b + c + d == a + (b + (c + d))
  {
  }

  /** From the first request on, whatever the client held before. */
  lemma ReadAll(c: State, store: Store, s: Settings, list: seq<Channel>, d: nat)
    requires Ends(list, s.inactiveChannel, d)
    requires forall q :: Live(q) ==> Holds(store, s, q, list, d)
    ensures (
      var read := s.(inactiveChannel := ReadChannel(s, list, d));
      var (end, kept) := Serve(c, store, Message(RECV, 0, c.tid, []), list, d);
      && kept == store && end.prop == read && end.events == c.events + [Received(read)]
      && end.out == c.out + Requests(c.tid, 0))
  {
    hide Text, Ends, Serve, Put, ReadChannel, Requests;
    ServeRecv(c, store, 0, list, d);
    var more := Message(RECV, 1, c.tid, []);
    assert Put(c.prop, 0, if 0 in store then store[0] else [], list) == NO_SETTINGS by {
      PutFirst(c.prop, if 0 in store then store[0] else [], list);
    }
    var c1 := c.(prop := NO_SETTINGS, out := c.out + [more]);
    ServeRecv(c1, store, 1, list, d);
    PutFinish(NO_SETTINGS, if 1 in store then store[1] else [], list);
    var c2 := c1.(out := c1.out + [Message(RECV, 2, c.tid, [])]);
    ReadFrom(c2, store, s, 2, list, d);
    FirstRequests(c.out, c.tid);
  }

  lemma PutFirst(s: Settings, value: seq<byte>, list: seq<Channel>)
    ensures Put(s, 0, value, list) == NO_SETTINGS
  {
  }

  // ----- there and back

  /**
   * An update followed, under any transaction numbers, by a read: the settings come back, the channel as its printed
   * path is looked up.
   */
  lemma UpdateThenRead(c: State, store: Store, s: Settings, n: u16, k: u16, list: seq<Channel>, d: nat)
    requires Ends(list, s.inactiveChannel, d) && c.prop == s && c.tid == n
    ensures (
      var (sent, kept) := Serve(c, store, Packet(s, n, 2, list, d), list, d);
      var (end, _) := Serve(sent.(tid := k), kept, Message(RECV, 0, k, []), list, d);
      && sent.events == c.events + [Sent(s)]
      && end.prop == s.(inactiveChannel := ReadChannel(s, list, d))
      && end.events == sent.events + [Received(end.prop)])
  {
    hide Text, Ends, Serve, ReadChannel, Following, Holds;
    SaveFrom(c, store, 2, list, d);
    var (sent, kept) := Serve(c, store, Packet(s, n, 2, list, d), list, d);
    ReadAll(sent.(tid := k), kept, s, list, d);
  }

  /**
   * The same settings come back exactly when there is no channel and none was named, or the text that is sent, the
   * first 255 bytes of the path, still joins the clipped names on the way down and every channel there is the first of
   * its name.
   */
  lemma ChannelComesBackIff(s: Settings, list: seq<Channel>, d: nat)
    requires Distinct(list) && NonzeroIds(list) && Ends(list, s.inactiveChannel, d)
    ensures ReadChannel(s, list, d) == s.inactiveChannel
            <==> if Find(list, s.inactiveChannel) == |list| then s.inactiveChannel == 0
                 else
                   var line := Lineage(list, s.inactiveChannel, d);
                   PathText(s.inactiveChannel, list, d) == Join(Clips(line)) && Leads(list, line, 0)
  {
    hide Distinct, NonzeroIds, Leads, Clip255, Resolve, Split, Join;
    var id := s.inactiveChannel;
    if Find(list, id) < |list| {
      LookupIff(list, id, d, PathText(id, list, d));
    }
  }

  /** With names of at most 32 bytes: exactly when the path is resolvable and fits the value. A path that is cut never
      leads back. */
  lemma ShortNamesComeBackIff(s: Settings, list: seq<Channel>, d: nat)
    requires Distinct(list) && NonzeroIds(list) && Ends(list, s.inactiveChannel, d)
    requires Find(list, s.inactiveChannel) < |list|
    requires forall i :: 0 <= i < |list| ==> |list[i].name| <= NAME_MAX && 0 !in list[i].name
    ensures PathOf(list, s.inactiveChannel, d).Some?
    ensures ReadChannel(s, list, d) == s.inactiveChannel
            <==> |PathOf(list, s.inactiveChannel, d).value| <= 255
                 && Resolvable(list, Lineage(list, s.inactiveChannel, d), 0)
  {
    hide Distinct, NonzeroIds, Leads, Resolvable, Resolve, Split, Join, Find, Lineage, Ends;
    var id := s.inactiveChannel;
    var line := Lineage(list, id, d);
    ChannelComesBackIff(s, list, d);
    LineageEnd(list, id, d);
    LineageIn(list, id, d);
    LeadsShort(list, line, 0);
    JoinNoZero(Names(line));
    CStrWhole(Join(Names(line)));
  }

  lemma {:induction false} LineageIn(list: seq<Channel>, id: u16, d: nat)
    requires Ends(list, id, d)
    ensures forall i :: 0 <= i < |Lineage(list, id, d)| ==> Lineage(list, id, d)[i] in list
    decreases d
  {
    var i := Find(list, id);
    if i < |list| && list[i].parent != 0 {
      LineageIn(list, list[i].parent, d - 1);
    }
  }

  lemma {:induction false} JoinNoZero(names: seq<seq<byte>>)
    requires forall i :: 0 <= i < |names| ==> 0 !in names[i]
    ensures 0 !in Join(names)
  {
    if |names| > 1 {
      JoinNoZero(names[1..]);
    }
  }
}
