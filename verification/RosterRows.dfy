/** What a flattening of the roster says, row by row. */
module RosterRows {
  import opened Bytes
  import opened Roster

  /** The ancestor k steps up. */
  function Up(r: Roster, id: u16, k: nat): u16
    decreases k
  {
    if k == 0 then id
    else if id in r.channels then Up(r, r.channels[id].parent, k - 1)
    else 0
  }

  lemma {:induction false} UpStands(r: Roster, id: u16, d: nat, k: nat)
    requires AtDepth(r, id, d) && k <= d
    ensures AtDepth(r, Up(r, id, k), d - k)
    ensures k < d ==> Up(r, id, k + 1) == r.channels[Up(r, id, k)].parent
    decreases k
  {
    if k > 0 {
      UpStands(r, r.channels[id].parent, d - 1, k - 1);
    } else if d > 0 {
      assert Up(r, id, 1) == Up(r, r.channels[id].parent, 0);
    }
  }

  /** The root has no row; the children of a channel at some depth are one deeper. */
  predicate Base(r: Roster, parent: u16, depth: nat) {
    if depth == 0 then parent == 0 else parent != 0 && AtDepth(r, parent, depth - 1)
  }

  /** Full trees of some children of the parent, no child twice. */
  ghost predicate Kids(r: Roster, parent: u16, ts: seq<Tree>) {
    && (forall i :: 0 <= i < |ts| ==> Full(r, ts[i]) && r.channels[ts[i].channel.id].parent == parent)
    && (forall i, j :: 0 <= i < j < |ts| ==> ts[i].channel.id != ts[j].channel.id)
  }

  lemma KidsOfFull(r: Roster, parent: u16, ts: seq<Tree>)
    requires FullAll(r, parent, ts)
    ensures Kids(r, parent, ts)
  {
    hide Full;
    forall i | 0 <= i < |ts|
      ensures ts[i].channel.id in r.channels && r.channels[ts[i].channel.id].parent == parent
    {
      assert Ids(ts)[i] in Ids(ts);
      assert Full(r, ts[i]);
      FullIn(r, ts[i]);
    }
    forall i, j | 0 <= i < j < |ts|
      ensures ts[i].channel.id != ts[j].channel.id
    {
      assert Ids(ts)[i] != Ids(ts)[j];
    }
  }

  lemma FullIn(r: Roster, t: Tree)
    requires Full(r, t)
    ensures t.channel.id in r.channels && r.channels[t.channel.id] == t.channel
    ensures FullAll(r, t.channel.id, t.kids) && Houses(r, t.channel.id, t.users)
  {
    hide Lists;
  }

  lemma HousesIn(r: Roster, channel: u16, users: seq<User>, u: nat)
    requires Houses(r, channel, users) && u < |users|
    ensures users[u].channelID == channel && Present(r, Row(0, UserRow(users[u])))
  {
    assert UserIds(users)[u] in UserIds(users);
  }

  lemma KidsTail(r: Roster, parent: u16, ts: seq<Tree>)
    requires Kids(r, parent, ts) && ts != []
    ensures Kids(r, parent, ts[1..]) && Full(r, ts[0])
    ensures ts[0].channel.id in r.channels && r.channels[ts[0].channel.id].parent == parent
    ensures forall i :: 0 <= i < |ts[1..]| ==> ts[1..][i].channel.id != ts[0].channel.id
  {
    hide Full;
    FullIn(r, ts[0]);
  }

  lemma BaseBelow(r: Roster, parent: u16, depth: nat, id: u16)
    requires Base(r, parent, depth) && id in r.channels && r.channels[id].parent == parent && RootFree(r)
    ensures AtDepth(r, id, depth) && Base(r, id, depth + 1)
  {
    assert !AtDepth(r, 0, depth);
  }

  /** The rows of a forest: the head, the users and the subforest of its first tree, then the other trees. */
  lemma FirstRows(ts: seq<Tree>, depth: nat)
    requires ts != []
    ensures var rows, u, below, later
              := RenderAll(ts, depth), |ts[0].users|, RenderAll(ts[0].kids, depth + 1), RenderAll(ts[1..], depth); (
              && |Render(ts[0], depth)| == 1 + u + |below|
              && |rows| == 1 + u + |below| + |later|
              && rows[0] == Row(depth, ChannelRow(ts[0].channel))
              && rows[1..1 + u] == UserRows(ts[0].users, depth + 1)
              && rows[1 + u..1 + u + |below|] == below
              && rows[1 + u + |below|..1 + u + |below| + |later|] == later)
  {
  }

  datatype Part = Head | UserPart(u: nat) | Below(k: nat) | Later(k: nat)

  /** The part of the forest that row i belongs to. */
  function PartOf(ts: seq<Tree>, depth: nat, i: nat): Part
    requires ts != []
  {
    var u := |ts[0].users|;
    var b := |RenderAll(ts[0].kids, depth + 1)|;
    if i == 0 then Head
    else if i < 1 + u then UserPart(i - 1)
    else if i < 1 + u + b then Below(i - 1 - u)
    else Later(i - 1 - u - b)
  }

  lemma PartRow(ts: seq<Tree>, depth: nat, i: nat)
    requires ts != [] && i < |RenderAll(ts, depth)|
    ensures match PartOf(ts, depth, i)
            case Head => i == 0 && RenderAll(ts, depth)[i] == Row(depth, ChannelRow(ts[0].channel))
            case UserPart(u) => u < |ts[0].users| && i == 1 + u
                                && RenderAll(ts, depth)[i] == Row(depth + 1, UserRow(ts[0].users[u]))
            case Below(k) => k < |RenderAll(ts[0].kids, depth + 1)| && i == 1 + |ts[0].users| + k
                             && RenderAll(ts, depth)[i] == RenderAll(ts[0].kids, depth + 1)[k]
            case Later(k) => k < |RenderAll(ts[1..], depth)| && i == |Render(ts[0], depth)| + k
                             && RenderAll(ts, depth)[i] == RenderAll(ts[1..], depth)[k]
  {
    hide RenderAll, Render;
    FirstRows(ts, depth);
    var rows := RenderAll(ts, depth);
    var u := |ts[0].users|;
    var b := |RenderAll(ts[0].kids, depth + 1)|;
    match PartOf(ts, depth, i)
    case Head =>
    case UserPart(k) => SliceAt(rows, 1, 1 + u, k);
    case Below(k) => SliceAt(rows, 1 + u, 1 + u + b, k);
    case Later(k) => SliceAt(rows, 1 + u + b, |rows|, k);
  }

  lemma SliceAt<T>(s: seq<T>, a: nat, b: nat, k: nat)
    requires a <= b <= |s| && k < b - a
    ensures s[a..b][k] == s[a + k]
  {
  }

  // ----- channel rows

  /** Every channel row shows a channel at its own depth, and the way up passes through one of the trees' roots. */
  lemma {:induction false} RowIsAt(r: Roster, parent: u16, ts: seq<Tree>, depth: nat, i: nat)
    requires Kids(r, parent, ts) && Base(r, parent, depth) && RootFree(r)
    requires i < |RenderAll(ts, depth)| && RenderAll(ts, depth)[i].item.ChannelRow?
    ensures var row := RenderAll(ts, depth)[i]; (
              row.depth >= depth && AtDepth(r, row.item.channel.id, row.depth)
              && exists t :: 0 <= t < |ts| && ts[t].channel.id == Up(r, row.item.channel.id, row.depth - depth))
    decreases ts
  {
    hide Full, Kids, AtDepth, Up, RenderAll;
    if ts == [] {
      RenderNone(depth);
      return;
    }
    var row := RenderAll(ts, depth)[i];
    KidsTail(r, parent, ts);
    BaseBelow(r, parent, depth, ts[0].channel.id);
    PartRow(ts, depth, i);
    match PartOf(ts, depth, i)
    case Head =>
      UpNone(r, ts[0].channel.id);
    case UserPart(u) =>
    case Below(k) =>
      FullIn(r, ts[0]);
      KidsOfFull(r, ts[0].channel.id, ts[0].kids);
      RowIsAt(r, ts[0].channel.id, ts[0].kids, depth + 1, k);
      KidParent(r, ts[0].channel.id, ts[0].kids, Up(r, row.item.channel.id, row.depth - depth - 1));
      UpStands(r, row.item.channel.id, row.depth, row.depth - depth - 1);
      assert ts[0].channel.id == Up(r, row.item.channel.id, row.depth - depth);
    case Later(k) =>
      RowIsAt(r, parent, ts[1..], depth, k);
      var t :| 0 <= t < |ts[1..]| && ts[1..][t].channel.id == Up(r, row.item.channel.id, row.depth - depth);
      assert ts[t + 1].channel.id == Up(r, row.item.channel.id, row.depth - depth);
  }

  lemma UpNone(r: Roster, id: u16)
    ensures Up(r, id, 0) == id
  {
  }

  lemma KidParent(r: Roster, parent: u16, ts: seq<Tree>, id: u16)
    requires Kids(r, parent, ts) && exists t :: 0 <= t < |ts| && ts[t].channel.id == id
    ensures id in r.channels && r.channels[id].parent == parent
  {
    hide Full;
    var t :| 0 <= t < |ts| && ts[t].channel.id == id;
    FullIn(r, ts[t]);
  }

  /** No channel has two rows. */
  lemma {:induction false} RowsDiffer(r: Roster, parent: u16, ts: seq<Tree>, depth: nat, i: nat, j: nat)
    requires Kids(r, parent, ts) && Base(r, parent, depth) && RootFree(r)
    requires i < j < |RenderAll(ts, depth)|
    requires RenderAll(ts, depth)[i].item.ChannelRow? && RenderAll(ts, depth)[j].item.ChannelRow?
    ensures RenderAll(ts, depth)[i].item.channel.id != RenderAll(ts, depth)[j].item.channel.id
    decreases ts
  {
    hide Full, Kids, AtDepth, Up, RenderAll, Base;
    if ts == [] {
      RenderNone(depth);
      return;
    }
    var a, b := RenderAll(ts, depth)[i], RenderAll(ts, depth)[j];
    KidsTail(r, parent, ts);
    BaseBelow(r, parent, depth, ts[0].channel.id);
    FullIn(r, ts[0]);
    KidsOfFull(r, ts[0].channel.id, ts[0].kids);
    PartRow(ts, depth, i);
    PartRow(ts, depth, j);
    var p, q := PartOf(ts, depth, i), PartOf(ts, depth, j);
    if p.Later? {
      RowsDiffer(r, parent, ts[1..], depth, p.k, q.k);
    } else if q.Later? {
      FirstTree(r, parent, ts, depth, i);
      RowIsAt(r, parent, ts[1..], depth, q.k);
      if a.item.channel.id == b.item.channel.id {
        DepthUnique(r, a.item.channel.id, a.depth, b.depth);
      }
    } else if p.Head? {
      RowIsAt(r, ts[0].channel.id, ts[0].kids, depth + 1, q.k);
      if a.item.channel.id == b.item.channel.id {
        DepthUnique(r, a.item.channel.id, a.depth, b.depth);
      }
    } else {
      RowsDiffer(r, ts[0].channel.id, ts[0].kids, depth + 1, p.k, q.k);
    }
  }

  /** The way up from a channel row of the first tree passes through that tree's root. */
  lemma FirstTree(r: Roster, parent: u16, ts: seq<Tree>, depth: nat, i: nat)
    requires Kids(r, parent, ts) && Base(r, parent, depth) && RootFree(r) && ts != []
    requires i < |RenderAll(ts, depth)| && RenderAll(ts, depth)[i].item.ChannelRow?
    requires !PartOf(ts, depth, i).Later?
    ensures var row := RenderAll(ts, depth)[i]; (
              row.depth >= depth && AtDepth(r, row.item.channel.id, row.depth)
              && Up(r, row.item.channel.id, row.depth - depth) == ts[0].channel.id)
  {
    hide Full, Kids, AtDepth, Up, RenderAll;
    var row := RenderAll(ts, depth)[i];
    KidsTail(r, parent, ts);
    BaseBelow(r, parent, depth, ts[0].channel.id);
    PartRow(ts, depth, i);
    match PartOf(ts, depth, i)
    case Head =>
      UpNone(r, ts[0].channel.id);
    case UserPart(u) =>
    case Below(k) =>
      FullIn(r, ts[0]);
      KidsOfFull(r, ts[0].channel.id, ts[0].kids);
      RowIsAt(r, ts[0].channel.id, ts[0].kids, depth + 1, k);
      KidParent(r, ts[0].channel.id, ts[0].kids, Up(r, row.item.channel.id, row.depth - depth - 1));
      UpStands(r, row.item.channel.id, row.depth, row.depth - depth - 1);
    case Later(k) =>
  }

  /** Every channel below the parent has its row. */
  lemma {:induction false} RowExists(r: Roster, parent: u16, ts: seq<Tree>, depth: nat, id: u16, d: nat)
    requires FullAll(r, parent, ts) && AtDepth(r, id, d) && d >= depth
    requires AtDepth(r, Up(r, id, d - depth), depth) && r.channels[Up(r, id, d - depth)].parent == parent
    ensures Row(d, ChannelRow(r.channels[id])) in RenderAll(ts, depth)
    decreases ts
  {
    hide Full, AtDepth, Up, RenderAll, Render;
    var top := Up(r, id, d - depth);
    AtDepthIn(r, top, depth);
    AtDepthIn(r, id, d);
    assert top in Children(r, parent);
    assert top in Ids(ts);
    var t :| 0 <= t < |ts| && Ids(ts)[t] == top;
    FullIn(r, ts[t]);
    if d == depth {
      UpNone(r, id);
      HeadRow(ts[t], depth);
    } else {
      UpStands(r, id, d, d - depth - 1);
      RowExists(r, top, ts[t].kids, depth + 1, id, d);
      BelowRow(ts[t], depth, Row(d, ChannelRow(r.channels[id])));
    }
    TreeRow(ts, depth, t, Row(d, ChannelRow(r.channels[id])));
  }

  lemma AtDepthIn(r: Roster, id: u16, d: nat)
    requires AtDepth(r, id, d)
    ensures id in r.channels
  {
  }

  lemma HeadRow(t: Tree, depth: nat)
    ensures Row(depth, ChannelRow(t.channel)) in Render(t, depth)
  {
    assert Render(t, depth)[0] == Row(depth, ChannelRow(t.channel));
  }

  lemma BelowRow(t: Tree, depth: nat, row: Row)
    requires row in RenderAll(t.kids, depth + 1)
    ensures row in Render(t, depth)
  {
    hide RenderAll;
  }

  lemma {:induction false} TreeRow(ts: seq<Tree>, depth: nat, t: nat, row: Row)
    requires t < |ts| && row in Render(ts[t], depth)
    ensures row in RenderAll(ts, depth)
  {
    hide Render;
    if t > 0 {
      TreeRow(ts[1..], depth, t - 1, row);
    }
  }

  // ----- present records

  /** The row shows the record that the roster holds now. */
  predicate Present(r: Roster, row: Row) {
    match row.item
    case ChannelRow(c) => c.id in r.channels && r.channels[c.id] == c
    case UserRow(u) => u.id in r.users && r.users[u.id] == u
  }

  lemma {:induction false} RowIsPresent(r: Roster, parent: u16, ts: seq<Tree>, depth: nat, i: nat)
    requires Kids(r, parent, ts) && i < |RenderAll(ts, depth)|
    ensures Present(r, RenderAll(ts, depth)[i])
    decreases ts
  {
    hide Full, Kids, RenderAll;
    if ts == [] {
      RenderNone(depth);
      return;
    }
    KidsTail(r, parent, ts);
    FullIn(r, ts[0]);
    PartRow(ts, depth, i);
    match PartOf(ts, depth, i)
    case Head =>
    case UserPart(u) => HousesIn(r, ts[0].channel.id, ts[0].users, u);
    case Below(k) =>
      KidsOfFull(r, ts[0].channel.id, ts[0].kids);
      RowIsPresent(r, ts[0].channel.id, ts[0].kids, depth + 1, k);
    case Later(k) => RowIsPresent(r, parent, ts[1..], depth, k);
  }

  /** No row of a flattening shows an old record. */
  lemma RowsArePresent(r: Roster, rows: seq<Row>, i: nat)
    requires IsFlattening(r, rows) && i < |rows|
    ensures Present(r, rows[i])
  {
    hide RenderAll, FullAll, Kids, Lists;
    var lobby, forest :| Shows(r, rows, lobby, forest);
    KidsOfFull(r, 0, forest);
    if i >= |lobby| {
      RowIsPresent(r, 0, forest, 0, i - |lobby|);
    }
  }

  // ----- users and owners

  function OwnerOf(item: Item): u16 {
    match item
    case ChannelRow(channel) => channel.parent
    case UserRow(user) => user.channelID
  }

  /** Row j is the channel that row i belongs to: it stands one step to the left, nothing between them stands further
      left than row i, and between a channel and its user there are only users. */
  predicate Owns(rows: seq<Row>, j: nat, i: nat) {
    && j < i < |rows|
    && rows[i].depth > 0
    && rows[j].depth == rows[i].depth - 1
    && rows[j].item.ChannelRow? && rows[j].item.channel.id == OwnerOf(rows[i].item)
    && (forall k :: j < k < i ==> rows[k].depth >= rows[i].depth)
    && (rows[i].item.UserRow? ==> forall k :: j < k < i ==> rows[k].item.UserRow?)
  }

  lemma OwnsShift(rows: seq<Row>, part: seq<Row>, at: nat, j: nat, i: nat)
    requires at + |part| <= |rows| && rows[at..at + |part|] == part
    requires Owns(part, j, i)
    ensures Owns(rows, at + j, at + i)
  {
    forall k | 0 <= k < |part|
      ensures rows[at + k] == part[k]
    {
      assert rows[at..at + |part|][k] == part[k];
    }
    forall k | at + j < k < at + i
      ensures rows[k].depth >= rows[at + i].depth && (part[i].item.UserRow? ==> rows[k].item.UserRow?)
    {
      assert rows[at + (k - at)] == part[k - at];
    }
  }

  /** Every row stands at the trees' depth, as a root, or has an owner. */
  lemma {:induction false} RowOwned(r: Roster, parent: u16, ts: seq<Tree>, depth: nat, i: nat)
    requires Kids(r, parent, ts) && i < |RenderAll(ts, depth)|
    ensures var rows := RenderAll(ts, depth); (
              rows[i].depth >= depth
              && (if rows[i].depth == depth then rows[i].item.ChannelRow? && OwnerOf(rows[i].item) == parent
                  else exists j: nat :: Owns(rows, j, i)))
    decreases ts
  {
    hide Full, Kids, RenderAll, Owns, Houses, FullAll, Render;
    if ts == [] {
      RenderNone(depth);
      return;
    }
    var rows := RenderAll(ts, depth);
    KidsTail(r, parent, ts);
    FullIn(r, ts[0]);
    KidsOfFull(r, ts[0].channel.id, ts[0].kids);
    FirstRows(ts, depth);
    PartRow(ts, depth, i);
    match PartOf(ts, depth, i)
    case Head =>
    case UserPart(u) =>
      UserOwned(r, ts, depth, u);
    case Below(k) =>
      var below := RenderAll(ts[0].kids, depth + 1);
      RowOwned(r, ts[0].channel.id, ts[0].kids, depth + 1, k);
      if below[k].depth == depth + 1 {
        ChildOwned(r, ts, depth, k);
      } else {
        var j: nat :| Owns(below, j, k);
        OwnsShift(rows, below, 1 + |ts[0].users|, j, k);
      }
    case Later(k) =>
      RowOwned(r, parent, ts[1..], depth, k);
      if rows[i].depth > depth {
        var later := RenderAll(ts[1..], depth);
        var j: nat :| Owns(later, j, k);
        OwnsShift(rows, later, |Render(ts[0], depth)|, j, k);
      }
  }

  lemma UserOwned(r: Roster, ts: seq<Tree>, depth: nat, u: nat)
    requires ts != [] && u < |ts[0].users| && Houses(r, ts[0].channel.id, ts[0].users)
    ensures Owns(RenderAll(ts, depth), 0, 1 + u)
  {
    hide RenderAll;
    FirstRows(ts, depth);
    var rows := RenderAll(ts, depth);
    HousesIn(r, ts[0].channel.id, ts[0].users, u);
    forall k | 1 <= k <= 1 + u
      ensures rows[k] == Row(depth + 1, UserRow(ts[0].users[k - 1]))
    {
      assert rows[1..1 + |ts[0].users|][k - 1] == rows[k];
    }
  }

  lemma ChildOwned(r: Roster, ts: seq<Tree>, depth: nat, k: nat)
    requires ts != [] && Kids(r, ts[0].channel.id, ts[0].kids)
    requires var below := RenderAll(ts[0].kids, depth + 1); (
               && k < |below| && below[k].depth == depth + 1
               && below[k].item.ChannelRow? && OwnerOf(below[k].item) == ts[0].channel.id)
    ensures Owns(RenderAll(ts, depth), 0, 1 + |ts[0].users| + k)
  {
    hide RenderAll, Kids;
    FirstRows(ts, depth);
    var rows, below, n := RenderAll(ts, depth), RenderAll(ts[0].kids, depth + 1), |ts[0].users|;
    forall m | 1 <= m <= n + |below|
      ensures rows[m].depth >= depth + 1
      ensures m > n ==> rows[m] == below[m - 1 - n]
    {
      if m <= n {
        assert rows[1..1 + n][m - 1] == rows[m];
      } else {
        assert rows[1 + n..1 + n + |below|][m - 1 - n] == rows[m];
        RowDepth(r, ts[0].channel.id, ts[0].kids, depth + 1, m - 1 - n);
      }
    }
  }

  lemma {:induction false} RowDepth(r: Roster, parent: u16, ts: seq<Tree>, depth: nat, i: nat)
    requires i < |RenderAll(ts, depth)|
    ensures RenderAll(ts, depth)[i].depth >= depth
    decreases ts
  {
    hide RenderAll;
    if ts == [] {
      RenderNone(depth);
      return;
    }
    PartRow(ts, depth, i);
    match PartOf(ts, depth, i)
    case Head =>
    case UserPart(u) =>
    case Below(k) => RowDepth(r, ts[0].channel.id, ts[0].kids, depth + 1, k);
    case Later(k) => RowDepth(r, parent, ts[1..], depth, k);
  }

  /** All named users of a channel follow it at once, sorted by name. */
  predicate UsersFollow(rows: seq<Row>, i: nat, users: seq<User>)
    requires i < |rows|
  {
    && i + 1 + |users| <= |rows|
    && rows[i + 1..i + 1 + |users|] == UserRows(users, rows[i].depth + 1)
  }

  /** Row i is followed by the named users of its channel. */
  ghost predicate Followed(r: Roster, rows: seq<Row>, i: nat) {
    && i < |rows| && rows[i].item.ChannelRow?
    && exists users :: Houses(r, rows[i].item.channel.id, users) && UsersFollow(rows, i, users)
  }

  lemma {:induction false} ChannelHasUsers(r: Roster, parent: u16, ts: seq<Tree>, depth: nat, i: nat)
    requires Kids(r, parent, ts) && i < |RenderAll(ts, depth)| && RenderAll(ts, depth)[i].item.ChannelRow?
    ensures Followed(r, RenderAll(ts, depth), i)
    decreases ts
  {
    hide Full, Kids, RenderAll, Houses, FullAll, Render, Followed;
    if ts == [] {
      RenderNone(depth);
      return;
    }
    var rows := RenderAll(ts, depth);
    KidsTail(r, parent, ts);
    FullIn(r, ts[0]);
    FirstRows(ts, depth);
    PartRow(ts, depth, i);
    match PartOf(ts, depth, i)
    case Head =>
      HeadFollowed(r, ts, depth);
    case UserPart(u) =>
    case Below(k) =>
      KidsOfFull(r, ts[0].channel.id, ts[0].kids);
      ChannelHasUsers(r, ts[0].channel.id, ts[0].kids, depth + 1, k);
      FollowShift(r, rows, RenderAll(ts[0].kids, depth + 1), 1 + |ts[0].users|, k);
    case Later(k) =>
      ChannelHasUsers(r, parent, ts[1..], depth, k);
      FollowShift(r, rows, RenderAll(ts[1..], depth), |Render(ts[0], depth)|, k);
  }

  lemma HeadFollowed(r: Roster, ts: seq<Tree>, depth: nat)
    requires ts != [] && Houses(r, ts[0].channel.id, ts[0].users)
    ensures Followed(r, RenderAll(ts, depth), 0)
  {
    hide RenderAll, Houses, Render;
    FirstRows(ts, depth);
    assert UsersFollow(RenderAll(ts, depth), 0, ts[0].users);
  }

  lemma FollowShift(r: Roster, rows: seq<Row>, part: seq<Row>, at: nat, i: nat)
    requires at + |part| <= |rows| && rows[at..at + |part|] == part && Followed(r, part, i)
    ensures Followed(r, rows, at + i)
  {
    hide Houses;
    var users :| Houses(r, part[i].item.channel.id, users) && UsersFollow(part, i, users);
    assert rows[at + i] == rows[at..at + |part|][i];
    SliceOfSlice(rows, at, at + |part|, i + 1, i + 1 + |users|);
    assert at + (i + 1) == at + i + 1 && at + (i + 1 + |users|) == at + i + 1 + |users|;
    assert UsersFollow(rows, at + i, users);
  }

  // ----- the whole list

  lemma TopOfChannel(r: Roster, id: u16, d: nat)
    requires AtDepth(r, id, d)
    ensures AtDepth(r, Up(r, id, d), 0)
  {
    UpStands(r, id, d, d);
  }

  /** The channel's present record, which reaches the root in d steps up. */
  predicate Stands(r: Roster, c: Channel, d: nat) {
    AtDepth(r, c.id, d) && r.channels[c.id] == c
  }

  lemma RowIffStands(r: Roster, lobby: seq<User>, forest: seq<Tree>, c: Channel, d: nat)
    requires FullAll(r, 0, forest) && RootFree(r)
    ensures Row(d, ChannelRow(c)) in UserRows(lobby, 0) + RenderAll(forest, 0) <==> Stands(r, c, d)
  {
    hide AtDepth, Up, RenderAll, Lists, FullAll, Kids, RootFree;
    KidsOfFull(r, 0, forest);
    var back := RenderAll(forest, 0);
    if Stands(r, c, d) {
      TopOfChannel(r, c.id, d);
      RootTop(r, Up(r, c.id, d));
      RowExists(r, 0, forest, 0, c.id, d);
    }
    if Row(d, ChannelRow(c)) in UserRows(lobby, 0) + back {
      var i :| 0 <= i < |back| && back[i] == Row(d, ChannelRow(c));
      RowIsAt(r, 0, forest, 0, i);
      RowIsPresent(r, 0, forest, 0, i);
    }
  }

  /** The rows show every channel that reaches the root, and only those, once each, with its present record, at its
      distance from the root. */
  lemma RowsAreChannels(r: Roster, rows: seq<Row>)
    requires IsFlattening(r, rows) && RootFree(r)
    ensures forall c: Channel, d: nat :: Row(d, ChannelRow(c)) in rows <==> Stands(r, c, d)
    ensures forall i, j :: 0 <= i < j < |rows| && rows[i].item.ChannelRow? && rows[j].item.ChannelRow? ==>
                             rows[i].item.channel.id != rows[j].item.channel.id
  {
    hide AtDepth, RenderAll, Lists, FullAll, Kids, RootFree, Stands, Houses;
    var lobby, forest :| Shows(r, rows, lobby, forest);
    forall c: Channel, d: nat
      ensures Row(d, ChannelRow(c)) in rows <==> Stands(r, c, d)
    {
      RowIffStands(r, lobby, forest, c, d);
    }
    KidsOfFull(r, 0, forest);
    var front := UserRows(lobby, 0);
    forall i, j | 0 <= i < j < |rows| && rows[i].item.ChannelRow? && rows[j].item.ChannelRow?
      ensures rows[i].item.channel.id != rows[j].item.channel.id
    {
      RowsDiffer(r, 0, forest, 0, i - |front|, j - |front|);
    }
  }

  lemma RootTop(r: Roster, id: u16)
    requires AtDepth(r, id, 0)
    ensures id in r.channels && r.channels[id].parent == 0
  {
  }

  /** A preorder: every row to the right of the margin has its parent channel, or its user's channel, as the nearest row
      one step to the left; at the margin stand the lobby's users, before all channels, and the root's channels. */
  lemma RowsArePreorder(r: Roster, rows: seq<Row>, i: nat)
    requires IsFlattening(r, rows) && i < |rows|
    ensures if rows[i].depth == 0 then
              && OwnerOf(rows[i].item) == 0
              && (rows[i].item.UserRow? ==> forall k :: 0 <= k < i ==> rows[k].item.UserRow?)
            else exists j: nat :: Owns(rows, j, i)
  {
    hide RenderAll, FullAll, Kids, Owns;
    var lobby, forest :| Shows(r, rows, lobby, forest);
    KidsOfFull(r, 0, forest);
    var front, back := UserRows(lobby, 0), RenderAll(forest, 0);
    if i < |front| {
      HousesIn(r, 0, lobby, i);
    } else {
      RowOwned(r, 0, forest, 0, i - |front|);
      if rows[i].depth > 0 {
        var j: nat :| Owns(back, j, i - |front|);
        OwnsShift(rows, back, |front|, j, i - |front|);
      }
    }
  }

  /** Every channel row is followed at once by all of that channel's named users, with their present records, sorted by
      name. */
  lemma UsersFollowTheirChannel(r: Roster, rows: seq<Row>, i: nat)
    requires IsFlattening(r, rows) && i < |rows| && rows[i].item.ChannelRow?
    ensures exists users :: Houses(r, rows[i].item.channel.id, users) && UsersFollow(rows, i, users)
  {
    hide RenderAll, FullAll, Kids, Houses, UsersFollow;
    var lobby, forest :| Shows(r, rows, lobby, forest);
    KidsOfFull(r, 0, forest);
    var front, back := UserRows(lobby, 0), RenderAll(forest, 0);
    ChannelHasUsers(r, 0, forest, 0, i - |front|);
    FollowShift(r, rows, back, |front|, i - |front|);
  }

  // ----- no rows without a root

  /** Below the root stands Up(r, 0, k), and below it, in the end, the root again. */
  lemma {:induction false} NoForest(r: Roster, d: nat, k: nat, parent: u16, ts: seq<Tree>)
    requires AtDepth(r, 0, d) && k <= d
    requires Up(r, 0, k) in r.channels && r.channels[Up(r, 0, k)].parent == parent
    ensures !FullAll(r, parent, ts)
    decreases ts
  {
    hide AtDepth, Up, Full;
    if FullAll(r, parent, ts) {
      var next := Up(r, 0, k);
      assert next in Children(r, parent);
      assert next in Ids(ts);
      var t :| 0 <= t < |ts| && Ids(ts)[t] == next;
      assert Full(r, ts[t]);
      FullIn(r, ts[t]);
      if k > 0 {
        UpStands(r, 0, d, k - 1);
        AtDepthIn(r, Up(r, 0, k - 1), d - (k - 1));
        NoForest(r, d, k - 1, next, ts[t].kids);
      } else {
        UpNone(r, 0);
        TopOfChannel(r, 0, d);
        RootTop(r, Up(r, 0, d));
        NoForest(r, d, d, 0, ts[t].kids);
      }
    }
  }

  /** A channel with the root's id that reaches the root leaves the recursion without an end: nothing flattens it. */
  lemma NoFlattening(r: Roster, rows: seq<Row>)
    requires !RootFree(r)
    ensures !IsFlattening(r, rows)
  {
    hide AtDepth, Full, FullAll, RenderAll, Houses;
    var d: nat :| AtDepth(r, 0, d);
    TopOfChannel(r, 0, d);
    RootTop(r, Up(r, 0, d));
    if IsFlattening(r, rows) {
      var lobby, forest :| Shows(r, rows, lobby, forest);
      NoForest(r, d, d, 0, forest);
    }
  }
}
