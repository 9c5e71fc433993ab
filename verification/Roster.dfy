/** The roster of channels and users, and its flattening into indented rows. */
module Roster {
  import opened Bytes

  /** `details` stands for all other fields: nothing but comparison looks at them. */
  datatype Channel = Channel(id: u16, parent: u16, name: seq<u16>, details: seq<u16>)
  datatype User = User(id: u16, channelID: u16, name: seq<u16>, details: seq<u16>)

  datatype Event =
    | ChannelUpserted(channel: Channel)
    | ChannelRemoved(id: u16)
    | UserUpserted(user: User)
    | UserRemoved(id: u16)
    | TalkStarted(id: u16)
    | TalkEnded(id: u16)
    | Disconnected
    | OtherEvent

  datatype Roster = Roster(channels: map<u16, Channel>, users: map<u16, User>, talking: set<u16>)
  {
    /** Entries are stored under their own ids. */
    predicate Keyed() {
      && (forall id :: id in channels ==> channels[id].id == id)
      && (forall id :: id in users ==> users[id].id == id)
    }
  }

  const EMPTY: Roster := Roster(map[], map[], {})

  function Apply(r: Roster, event: Event): Roster {
    match event
    case ChannelUpserted(channel) => r.(channels := r.channels[channel.id := channel])
    case ChannelRemoved(id) => r.(channels := r.channels - {id})
    case UserUpserted(user) => r.(users := r.users[user.id := user])
    case UserRemoved(id) => r.(users := r.users - {id}, talking := r.talking - {id})
    case TalkStarted(id) => r.(talking := r.talking + {id})
    case TalkEnded(id) => r.(talking := r.talking - {id})
    case Disconnected => r.(talking := {})
    case OtherEvent => r
  }

  lemma ApplyKeyed(r: Roster, event: Event)
    requires r.Keyed()
    ensures Apply(r, event).Keyed()
  {
  }

  // ----- what a run of events leaves

  function After(events: seq<Event>): Roster {
    if events == [] then EMPTY else Apply(After(events[..|events| - 1]), events[|events| - 1])
  }

  /** The last event that says something about a user's talking. */
  function LastTalk(events: seq<Event>, id: u16): bool {
    events != [] && (
      var last := events[|events| - 1];
      if last == TalkStarted(id) then true
      else if last == TalkEnded(id) || last == UserRemoved(id) || last == Disconnected then false
      else LastTalk(events[..|events| - 1], id))
  }

  datatype Entry<T> = Gone | Kept(value: T)

  /** The last record that came in for a user, unless the user was removed after it; and the same for a channel. */
  function LastUser(events: seq<Event>, id: u16): Entry<User> {
    if events == [] then Gone
    else
      var last := events[|events| - 1];
      if last.UserUpserted? && last.user.id == id then Kept(last.user)
      else if last == UserRemoved(id) then Gone
      else LastUser(events[..|events| - 1], id)
  }

  function LastChannel(events: seq<Event>, id: u16): Entry<Channel> {
    if events == [] then Gone
    else
      var last := events[|events| - 1];
      if last.ChannelUpserted? && last.channel.id == id then Kept(last.channel)
      else if last == ChannelRemoved(id) then Gone
      else LastChannel(events[..|events| - 1], id)
  }

  /** Over every run from an empty roster: each user and channel is there with the last record that came in for it,
      unless it was removed after that, and a user is talking exactly if the last event about it is a talk start. */
  lemma {:induction false} RunKeepsLast(events: seq<Event>)
    ensures var r := After(events); (
              && (forall id :: LastUser(events, id) == if id in r.users then Kept(r.users[id]) else Gone)
              && (forall id :: LastChannel(events, id) == if id in r.channels then Kept(r.channels[id]) else Gone)
              && (forall id :: LastTalk(events, id) <==> id in r.talking))
  {
    if events != [] {
      RunKeepsLast(events[..|events| - 1]);
    }
  }

  // ----- sorting by name

  predicate Less(a: seq<u16>, b: seq<u16>) {
    b != [] && (a == [] || a[0] < b[0] || (a[0] == b[0] && Less(a[1..], b[1..])))
  }

  lemma {:induction false} LessTransitive(a: seq<u16>, b: seq<u16>, c: seq<u16>)
    requires !Less(b, a) && !Less(c, b)
    ensures !Less(c, a)
  {
    if Less(c, a) && c != [] && b != [] && a != [] && a[0] == b[0] == c[0] {
      LessTransitive(a[1..], b[1..], c[1..]);
    }
  }

  lemma {:induction false} LessOneWay(a: seq<u16>, b: seq<u16>)
    ensures !(Less(a, b) && Less(b, a))
  {
    if a != [] && b != [] {
      LessOneWay(a[1..], b[1..]);
    }
  }

  /** The names agree up to place k, where one of them ends or has the smaller unit. */
  predicate DifferAt(a: seq<u16>, b: seq<u16>, k: nat) {
    && k <= |a| && k < |b| && a[..k] == b[..k]
    && (k == |a| || a[k] < b[k])
  }

  /** `Less` is the order of the dictionary. */
  ghost predicate Precedes(a: seq<u16>, b: seq<u16>) {
    exists k: nat :: DifferAt(a, b, k)
  }

  lemma {:induction false} LessIffPrecedes(a: seq<u16>, b: seq<u16>)
    ensures Less(a, b) <==> Precedes(a, b)
  {
    if b != [] && a != [] && a[0] == b[0] {
      LessIffPrecedes(a[1..], b[1..]);
      if k: nat :| DifferAt(a[1..], b[1..], k) {
        assert a[..k + 1] == [a[0]] + a[1..][..k] && b[..k + 1] == [b[0]] + b[1..][..k];
        assert DifferAt(a, b, k + 1);
      }
      if k: nat :| DifferAt(a, b, k) {
        assert a[..k][1..] == a[1..][..k - 1] && b[..k][1..] == b[1..][..k - 1];
        assert DifferAt(a[1..], b[1..], k - 1);
      }
    } else if b != [] && (a == [] || a[0] < b[0]) {
      assert DifferAt(a, b, 0);
    } else {
      forall k: nat | DifferAt(a, b, k)
        ensures k == 0
      {
        DifferLater(a, b, k);
      }
    }
  }

  lemma DifferLater(a: seq<u16>, b: seq<u16>, k: nat)
    requires DifferAt(a, b, k)
    ensures k > 0 ==> a != [] && a[0] == b[0]
  {
    if k > 0 {
      assert a[..k][0] == b[..k][0];
    }
  }

  type Named = map<u16, seq<u16>>

  /** `order` lists the ids once each, with names that do not decrease. Ids with equal names may come in any order. */
  ghost predicate Lists(ids: set<u16>, names: Named, order: seq<u16>) {
    && (forall id :: id in order <==> id in ids)
    && (forall i, j :: 0 <= i < j < |order| ==> order[i] != order[j])
    && (forall id :: id in order ==> id in names)
    && (forall i, j :: 0 <= i < j < |order| ==> !Less(names[order[j]], names[order[i]]))
  }

  lemma {:induction false} LeastExists(ids: set<u16>, names: Named)
    requires ids != {} && ids <= names.Keys
    ensures exists m :: m in ids && forall x :: x in ids ==> !Less(names[x], names[m])
    decreases ids
  {
    var a :| a in ids;
    var rest := ids - {a};
    LessOneWay(names[a], names[a]);
    if rest == {} {
      forall x | x in ids
        ensures !Less(names[x], names[a])
      {
        assert x == a || x in rest;
      }
    } else {
      LeastExists(rest, names);
      var m :| m in rest && forall x :: x in rest ==> !Less(names[x], names[m]);
      LessOneWay(names[a], names[m]);
      var least := if Less(names[a], names[m]) then a else m;
      forall x | x in ids
        ensures !Less(names[x], names[least])
      {
        if x != a {
          LessTransitive(names[least], names[m], names[x]);
        }
      }
    }
  }

  /** `sorted(by:)` on names: some order without a decrease. */
  method Sorted(ids: set<u16>, names: Named) returns (order: seq<u16>)
    requires ids <= names.Keys
    ensures Lists(ids, names, order)
  {
    order := [];
    var rest := ids;
    while rest != {}
      invariant rest <= ids
      invariant Lists(ids - rest, names, order)
      invariant forall x, i :: x in rest && 0 <= i < |order| ==> !Less(names[x], names[order[i]])
      decreases rest
    {
      LeastExists(rest, names);
      var m :| m in rest && forall x :: x in rest ==> !Less(names[x], names[m]);
      order := order + [m];
      rest := rest - {m};
    }
    assert ids - rest == ids;
  }

  // ----- the tree and its rows

  function Children(r: Roster, parent: u16): set<u16> {
    set id | id in r.channels && r.channels[id].parent == parent
  }

  /** The users of a channel that have a name. */
  function Members(r: Roster, channel: u16): set<u16> {
    set id | id in r.users && r.users[id].channelID == channel && r.users[id].name != []
  }

  function ChannelNames(r: Roster): Named {
    map id | id in r.channels :: r.channels[id].name
  }

  function UserNames(r: Roster): Named {
    map id | id in r.users :: r.users[id].name
  }

  datatype Tree = Tree(channel: Channel, users: seq<User>, kids: seq<Tree>)

  /** Rows are copies of the records, as they were when the row was made. */
  datatype Item = ChannelRow(channel: Channel) | UserRow(user: User)
  datatype Row = Row(depth: nat, item: Item)

  function UserRows(users: seq<User>, depth: nat): (rows: seq<Row>)
    ensures |rows| == |users|
    ensures forall i :: 0 <= i < |rows| ==> rows[i] == Row(depth, UserRow(users[i]))
  {
    seq(|users|, i requires 0 <= i < |users| => Row(depth, UserRow(users[i])))
  }

  /** A channel, its users, its subchannels. */
  function Render(t: Tree, depth: nat): seq<Row>
    decreases t
  {
    [Row(depth, ChannelRow(t.channel))] + UserRows(t.users, depth + 1) + RenderAll(t.kids, depth + 1)
  }

  function RenderAll(ts: seq<Tree>, depth: nat): seq<Row>
    decreases ts
  {
    if ts == [] then [] else Render(ts[0], depth) + RenderAll(ts[1..], depth)
  }

  function Ids(ts: seq<Tree>): (ids: seq<u16>)
    ensures |ids| == |ts|
    ensures forall i :: 0 <= i < |ids| ==> ids[i] == ts[i].channel.id
  {
    seq(|ts|, i requires 0 <= i < |ts| => ts[i].channel.id)
  }

  function UserIds(users: seq<User>): (ids: seq<u16>)
    ensures |ids| == |users|
    ensures forall i :: 0 <= i < |ids| ==> ids[i] == users[i].id
  {
    seq(|users|, i requires 0 <= i < |users| => users[i].id)
  }

  /** All named users of the channel, with their present records, sorted by name. */
  ghost predicate Houses(r: Roster, channel: u16, users: seq<User>) {
    && Lists(Members(r, channel), UserNames(r), UserIds(users))
    && (forall i :: 0 <= i < |users| ==> users[i].id in r.users && r.users[users[i].id] == users[i])
  }

  /** The tree shows a channel's present record with all its named users and all its subchannels, sorted by name. */
  ghost predicate Full(r: Roster, t: Tree)
    decreases t
  {
    && t.channel.id in r.channels && r.channels[t.channel.id] == t.channel
    && Houses(r, t.channel.id, t.users)
    && Lists(Children(r, t.channel.id), ChannelNames(r), Ids(t.kids))
    && (forall i :: 0 <= i < |t.kids| ==> Full(r, t.kids[i]))
  }

  ghost predicate FullAll(r: Roster, parent: u16, ts: seq<Tree>) {
    && Lists(Children(r, parent), ChannelNames(r), Ids(ts))
    && (forall i :: 0 <= i < |ts| ==> Full(r, ts[i]))
  }

  ghost predicate Shows(r: Roster, rows: seq<Row>, lobby: seq<User>, forest: seq<Tree>) {
    && Houses(r, 0, lobby)
    && FullAll(r, 0, forest)
    && rows == UserRows(lobby, 0) + RenderAll(forest, 0)
  }

  /** The rows are a flattening of the roster: lobby users first, then the channel forest depth first. */
  ghost predicate IsFlattening(r: Roster, rows: seq<Row>) {
    exists lobby, forest :: Shows(r, rows, lobby, forest)
  }

  // ----- flattening without a visited set

  /** The channel reaches the root in d steps up. */
  predicate AtDepth(r: Roster, id: u16, d: nat)
    decreases d
  {
    && id in r.channels
    && (if d == 0 then r.channels[id].parent == 0
        else r.channels[id].parent != 0 && AtDepth(r, r.channels[id].parent, d - 1))
  }

  /** A channel with the root's own id does not reach the root: otherwise the walk would meet the root again. */
  ghost predicate RootFree(r: Roster) {
    forall d: nat :: !AtDepth(r, 0, d)
  }

  /** What stands above place i of a way from the root. */
  function Above(path: seq<u16>, i: nat): u16
    requires i <= |path|
  {
    if i == 0 then 0 else path[i - 1]
  }

  /** The way from the root down to a channel: no channel twice. */
  ghost predicate Way(r: Roster, path: seq<u16>) {
    && (forall i :: 0 <= i < |path| ==> path[i] in r.channels)
    && (forall i :: 0 <= i < |path| ==> r.channels[path[i]].parent == Above(path, i))
    && (forall i, j :: 0 <= i < j < |path| ==> path[i] != path[j])
  }

  lemma WayStep(r: Roster, path: seq<u16>, i: nat)
    requires Way(r, path) && i < |path|
    ensures path[i] in r.channels && r.channels[path[i]].parent == Above(path, i)
  {
  }

  lemma {:induction false} WayDepth(r: Roster, path: seq<u16>, i: nat)
    requires Way(r, path) && RootFree(r) && i < |path|
    ensures AtDepth(r, path[i], i) && path[i] != 0
  {
    hide Way;
    WayStep(r, path, i);
    if i > 0 {
      WayDepth(r, path, i - 1);
    }
    assert !AtDepth(r, 0, i);
  }

  lemma {:induction false} DepthUnique(r: Roster, id: u16, d: nat, e: nat)
    requires AtDepth(r, id, d) && AtDepth(r, id, e)
    ensures d == e
    decreases d
  {
    if d > 0 && e > 0 {
      DepthUnique(r, r.channels[id].parent, d - 1, e - 1);
    }
  }

  lemma NotOnWay(r: Roster, path: seq<u16>, child: u16, i: nat)
    requires Way(r, path) && RootFree(r) && i < |path|
    requires child in r.channels && r.channels[child].parent == Above(path, |path|)
    ensures path[i] != child
  {
    hide Way, RootFree;
    WayDepth(r, path, i);
    WayDepth(r, path, |path| - 1);
    if path[i] == child {
      DepthUnique(r, child, i, |path|);
    }
  }

  /** A child is never on the way to its parent: every channel stands at one distance from the root only. */
  lemma ChildIsNew(r: Roster, path: seq<u16>, child: u16)
    requires Way(r, path) && RootFree(r)
    requires child in r.channels && r.channels[child].parent == Above(path, |path|)
    ensures Way(r, path + [child])
  {
    hide RootFree;
    var longer := path + [child];
    forall i | 0 <= i < |longer|
      ensures longer[i] in r.channels && r.channels[longer[i]].parent == Above(longer, i)
    {
      if i < |path| {
        WayStep(r, path, i);
      }
    }
    forall i, j | 0 <= i < j < |longer|
      ensures longer[i] != longer[j]
    {
      assert longer[i] == path[i] && (j < |path| ==> longer[j] == path[j]);
      NotOnWay(r, path, child, i);
    }
  }

  lemma {:induction false} WayFits(r: Roster, path: seq<u16>, within: set<u16>)
    requires forall i :: 0 <= i < |path| ==> path[i] in within
    requires forall i, j :: 0 <= i < j < |path| ==> path[i] != path[j]
    ensures |path| <= |within|
  {
    if path != [] {
      var n := |path| - 1;
      WayFits(r, path[..n], within - {path[n]});
    }
  }

  method AddUsers(r: Roster, channel: u16, depth: nat, rows: seq<Row>) returns (out: seq<Row>, ghost users: seq<User>)
    requires r.Keyed()
    ensures Houses(r, channel, users)
    ensures out == rows + UserRows(users, depth)
  {
    hide Lists;
    var order := Sorted(Members(r, channel), UserNames(r));
    ListsMembers(Members(r, channel), UserNames(r), order);
    users := [];
    out := rows;
    for i := 0 to |order|
      invariant out == rows + UserRows(users, depth)
      invariant UserIds(users) == order[..i]
      invariant forall j :: 0 <= j < |users| ==> users[j].id in r.users && r.users[users[j].id] == users[j]
    {
      assert order[i] in order;
      var user := r.users[order[i]];
      out := out + [Row(depth, UserRow(user))];
      assert UserRows(users + [user], depth) == UserRows(users, depth) + [Row(depth, UserRow(user))];
      assert UserIds(users + [user]) == order[..i] + [order[i]];
      users := users + [user];
    }
    assert order[..|order|] == order;
  }

  /** The recursive walk. The ghost path is only there for termination. */
  method AddChannels(r: Roster, parent: u16, depth: nat, rows: seq<Row>, ghost path: seq<u16>)
    returns (out: seq<Row>, ghost trees: seq<Tree>)
    requires r.Keyed() && RootFree(r) && Way(r, path)
    requires parent == Above(path, |path|)
    ensures FullAll(r, parent, trees)
    ensures out == rows + RenderAll(trees, depth)
    decreases |r.channels| - |path|, 1
  {
    hide Way, Full, Render, RenderAll, Lists;
    var order := Sorted(Children(r, parent), ChannelNames(r));
    ListsMembers(Children(r, parent), ChannelNames(r), order);
    out := rows;
    trees := [];
    RenderNone(depth);
    for i := 0 to |order|
      invariant Ids(trees) == order[..i]
      invariant forall j :: 0 <= j < |trees| ==> Full(r, trees[j])
      invariant out == rows + RenderAll(trees, depth)
    {
      assert order[i] in order;
      ChildIsNew(r, path, order[i]);
      ghost var before := RenderAll(trees, depth);
      ghost var tree;
      out, tree := AddChannel(r, order[i], depth, out, path + [order[i]]);
      RenderSnoc(trees, tree, depth);
      assert rows + before + Render(tree, depth) == rows + (before + Render(tree, depth));
      trees := trees + [tree];
      assert Ids(trees) == order[..i] + [order[i]];
    }
    assert order[..|order|] == order;
  }

  lemma RenderNone(depth: nat)
    ensures RenderAll([], depth) == []
  {
  }

  lemma ListsMembers(ids: set<u16>, names: Named, order: seq<u16>)
    requires Lists(ids, names, order)
    ensures forall id :: id in order <==> id in ids
  {
  }

  /** One pass of the walk's loop body. */
  method AddChannel(r: Roster, id: u16, depth: nat, rows: seq<Row>, ghost path: seq<u16>)
    returns (out: seq<Row>, ghost tree: Tree)
    requires r.Keyed() && RootFree(r) && Way(r, path) && path != [] && path[|path| - 1] == id
    ensures Full(r, tree) && tree.channel.id == id
    ensures out == rows + Render(tree, depth)
    decreases |r.channels| - |path| + 1, 0
  {
    hide RenderAll, Lists;
    WayFits(r, path, r.channels.Keys);
    ghost var users, kids;
    var channel := r.channels[id];
    out := rows + [Row(depth, ChannelRow(channel))];
    out, users := AddUsers(r, id, depth + 1, out);
    out, kids := AddChannels(r, id, depth + 1, out, path);
    tree := Tree(channel, users, kids);
    assert rows + [Row(depth, ChannelRow(channel))] + UserRows(users, depth + 1) + RenderAll(kids, depth + 1)
        == rows + ([Row(depth, ChannelRow(channel))] + UserRows(users, depth + 1) + RenderAll(kids, depth + 1));
  }

  lemma {:induction false} RenderSnoc(ts: seq<Tree>, t: Tree, depth: nat)
    ensures RenderAll(ts + [t], depth) == RenderAll(ts, depth) + Render(t, depth)
  {
    if ts == [] {
      assert ts + [t] == [t];
      assert [t][1..] == [];
    } else {
      RenderSnoc(ts[1..], t, depth);
      assert (ts + [t])[1..] == ts[1..] + [t];
    }
  }

  /** `flattenedTree`. */
  method FlattenedTree(r: Roster) returns (rows: seq<Row>)
    requires r.Keyed() && RootFree(r)
    ensures IsFlattening(r, rows)
  {
    ghost var lobby, forest;
    rows, lobby := AddUsers(r, 0, 0, []);
    rows, forest := AddChannels(r, 0, 0, rows, []);
    assert Shows(r, rows, lobby, forest);
  }
}
