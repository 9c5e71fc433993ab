/** The channel list as an ordered map: what any run of updates, removals and moves does to the channels and their
    order. */
module ChannelRuns {
  import opened Bytes
  import opened Options
  import opened Channels

  datatype Op = Update(channel: Channel) | Remove(id: u16) | Move(id: u16, target: u16)

  function Step(s: seq<Channel>, op: Op): seq<Channel> {
    match op
    case Update(c) => Updated(s, c)
    case Remove(id) => Removed(s, id)
    case Move(id, target) => Moved(s, id, target)
  }

  function Run(s: seq<Channel>, ops: seq<Op>): seq<Channel>
    decreases |ops|
  {
    if ops == [] then s else Run(Step(s, ops[0]), ops[1..])
  }

  /** The same operations on an unordered map; a move does nothing to it. */
  function MapStep(m: map<u16, Channel>, op: Op): map<u16, Channel> {
    match op
    case Update(c) => m[c.id := c]
    case Remove(id) => m - {id}
    case Move(_, _) => m
  }

  function MapRun(m: map<u16, Channel>, ops: seq<Op>): map<u16, Channel>
    decreases |ops|
  {
    if ops == [] then m else MapRun(MapStep(m, ops[0]), ops[1..])
  }

  function Entry(s: seq<Channel>, x: u16): Option<Channel> {
    var i := Find(s, x);
    if i < |s| then Some(s[i]) else None
  }

  function Get(m: map<u16, Channel>, x: u16): Option<Channel> {
    if x in m then Some(m[x]) else None
  }

  /** The list holds exactly the map's channels, each once. */
  ghost predicate Holds(s: seq<Channel>, m: map<u16, Channel>) {
    Distinct(s) && forall x :: Entry(s, x) == Get(m, x)
  }

  lemma EntryAt(s: seq<Channel>, i: nat)
    requires Distinct(s) && i < |s|
    ensures Entry(s, s[i].id) == Some(s[i])
  {
    FindUnique(s, i);
  }

  lemma NoEntry(s: seq<Channel>, x: u16)
    requires forall i :: 0 <= i < |s| ==> s[i].id != x
    ensures Entry(s, x) == None
  {
  }

  lemma UpdatedEntry(s: seq<Channel>, c: Channel, x: u16)
    requires Distinct(s)
    ensures Entry(Updated(s, c), x) == if x == c.id then Some(c) else Entry(s, x)
  {
    hide Find;
    UpdatedDistinct(s, c);
    var r, i, k := Updated(s, c), Find(s, c.id), Find(s, x);
    if x == c.id {
      EntryAt(r, i);
    } else if k < |s| {
      EntryAt(r, k);
    } else {
      NoEntry(r, x);
    }
  }

  lemma RemovedEntry(s: seq<Channel>, id: u16, x: u16)
    requires Distinct(s)
    ensures Entry(Removed(s, id), x) == if x == id then None else Entry(s, x)
  {
    hide Find;
    RemovedDistinct(s, id);
    var r, i, k := Removed(s, id), Find(s, id), Find(s, x);
    if i < |s| && x != id {
      if k < |s| {
        EntryAt(r, if k < i then k else k - 1);
      } else {
        NoEntry(r, x);
      }
    }
  }

  lemma MovedEntry(s: seq<Channel>, id: u16, target: u16, x: u16)
    requires Distinct(s)
    ensures Entry(Moved(s, id, target), x) == Entry(s, x)
  {
    hide Find, MovedTo;
    MovedMembers(s, id, target, x);
    var i, t, k := Find(s, id), Find(s, target), Find(s, x);
    if i < |s| && t < |s| && k < |s| {
      MovedFind(s, id, target, x);
      MovedPlaces(s, i, t, k);
    }
  }

  lemma StepHolds(s: seq<Channel>, m: map<u16, Channel>, op: Op)
    requires Holds(s, m)
    ensures Holds(Step(s, op), MapStep(m, op))
  {
    hide Find, Distinct, Entry, Updated, Removed, Moved;
    forall x: u16
      ensures Entry(Step(s, op), x) == Get(MapStep(m, op), x)
    {
      assert Entry(s, x) == Get(m, x);
      match op
      case Update(c) => UpdatedEntry(s, c, x);
      case Remove(id) => RemovedEntry(s, id, x);
      case Move(id, target) => MovedEntry(s, id, target, x);
    }
    match op
    case Update(c) => UpdatedDistinct(s, c);
    case Remove(id) => RemovedDistinct(s, id);
    case Move(id, target) => MovedDistinct(s, id, target);
  }

  /** Over any run the ids stay distinct and the list holds what the map would. */
  lemma {:induction false} RunHolds(s: seq<Channel>, m: map<u16, Channel>, ops: seq<Op>)
    requires Holds(s, m)
    ensures Holds(Run(s, ops), MapRun(m, ops))
    decreases |ops|
  {
    hide Holds, Step, MapStep;
    if ops != [] {
      StepHolds(s, m, ops[0]);
      RunHolds(Step(s, ops[0]), MapStep(m, ops[0]), ops[1..]);
    }
  }

  predicate Touches(op: Op, x: u16) {
    match op
    case Update(_) => false
    case Remove(id) => x == id
    case Move(id, _) => x == id
  }

  /** Only a move of a channel changes its place among the others; a new channel goes behind all of them. */
  lemma StepKeepsOrder(s: seq<Channel>, op: Op, x: u16, y: u16)
    requires Distinct(s) && !Touches(op, x) && !Touches(op, y)
    requires Find(s, x) < |s| && Find(s, y) < |s|
    ensures Find(Step(s, op), x) < |Step(s, op)| && Find(Step(s, op), y) < |Step(s, op)|
    ensures Sort(Step(s, op), x, y) == Sort(s, x, y)
  {
    hide Find, Moved, Removed, Distinct;
    match op
    case Update(c) =>
      UpdatedFind(s, c, x);
      UpdatedFind(s, c, y);
    case Remove(id) =>
      RemovedFind(s, id, x);
      RemovedFind(s, id, y);
    case Move(id, target) =>
      MovedMembers(s, id, target, x);
      MovedMembers(s, id, target, y);
      MovedKeepsOrder(s, id, target, x, y);
  }

  lemma UpdatedFind(s: seq<Channel>, c: Channel, x: u16)
    requires Distinct(s) && Find(s, x) < |s|
    ensures Find(Updated(s, c), x) == Find(s, x)
  {
    hide Find;
    UpdatedDistinct(s, c);
    FindUnique(Updated(s, c), Find(s, x));
  }

  lemma RemovedFind(s: seq<Channel>, id: u16, x: u16)
    requires Distinct(s) && Find(s, x) < |s| && x != id
    ensures Find(Removed(s, id), x) < |Removed(s, id)|
    ensures Find(Removed(s, id), x) == if Find(s, id) < Find(s, x) then Find(s, x) - 1 else Find(s, x)
  {
    hide Find;
    RemovedDistinct(s, id);
    var i, k := Find(s, id), Find(s, x);
    if i < |s| {
      FindUnique(Removed(s, id), if k < i then k else k - 1);
    }
  }

  /** Over any run, two channels that are neither removed nor moved keep their order. */
  lemma {:induction false} RunKeepsOrder(s: seq<Channel>, ops: seq<Op>, x: u16, y: u16)
    requires Distinct(s) && Find(s, x) < |s| && Find(s, y) < |s|
    requires forall i :: 0 <= i < |ops| ==> !Touches(ops[i], x) && !Touches(ops[i], y)
    ensures Sort(Run(s, ops), x, y) == Sort(s, x, y)
    decreases |ops|
  {
    hide Find, Step, Sort, Distinct;
    if ops != [] {
      StepKeepsOrder(s, ops[0], x, y);
      StepDistinct(s, ops[0]);
      RunKeepsOrder(Step(s, ops[0]), ops[1..], x, y);
    }
  }

  lemma StepDistinct(s: seq<Channel>, op: Op)
    requires Distinct(s)
    ensures Distinct(Step(s, op))
  {
    hide Distinct;
    match op
    case Update(c) => UpdatedDistinct(s, c);
    case Remove(id) => RemovedDistinct(s, id);
    case Move(id, target) => MovedDistinct(s, id, target);
  }
}
