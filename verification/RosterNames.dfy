/** The users among the rows, and the names of siblings and of the users of one channel. */
module RosterNames {
  import opened Bytes
  import opened Roster
  import opened RosterRows

  // ----- the users' rows

  /** The channel of a user row has its own row among the same trees. */
  lemma UserHasChannel(r: Roster, parent: u16, ts: seq<Tree>, depth: nat, i: nat) returns (h: nat)
    requires Kids(r, parent, ts)
    requires i < |RenderAll(ts, depth)| && RenderAll(ts, depth)[i].item.UserRow?
    ensures var rows := RenderAll(ts, depth); (
              && h < i && rows[h].item.ChannelRow? && rows[h].item.channel.id == rows[i].item.user.channelID
              && rows[i].depth == rows[h].depth + 1)
  {
    hide RenderAll, Kids;
    RowOwned(r, parent, ts, depth, i);
    var j: nat :| Owns(RenderAll(ts, depth), j, i);
    h := j;
  }

  /** Two users of one channel: no two rows for one user, and the names never go down. */
  predicate Rises(a: User, b: User) {
    a.id != b.id && !Less(b.name, a.name)
  }

  lemma HousesRise(r: Roster, channel: u16, users: seq<User>, u: nat, v: nat)
    requires Houses(r, channel, users) && u < v < |users|
    ensures Rises(users[u], users[v])
  {
    assert UserIds(users)[u] != UserIds(users)[v];
    assert !Less(UserNames(r)[UserIds(users)[v]], UserNames(r)[UserIds(users)[u]]);
  }

  /** A channel's id has no row in another tree, nor below itself. */
  lemma HeadElsewhere(r: Roster, parent: u16, ts: seq<Tree>, depth: nat, h: nat)
    requires Kids(r, parent, ts) && Base(r, parent, depth) && RootFree(r) && ts != []
    requires 0 < h < |RenderAll(ts, depth)| && RenderAll(ts, depth)[h].item.ChannelRow?
    ensures RenderAll(ts, depth)[h].item.channel.id != ts[0].channel.id
  {
    hide RenderAll, Kids, Base, RootFree, Full;
    PartRow(ts, depth, 0);
    RowsDiffer(r, parent, ts, depth, 0, h);
  }

  lemma {:induction false} UsersRise(r: Roster, parent: u16, ts: seq<Tree>, depth: nat, i: nat, j: nat)
    requires Kids(r, parent, ts) && Base(r, parent, depth) && RootFree(r)
    requires i < j < |RenderAll(ts, depth)|
    requires RenderAll(ts, depth)[i].item.UserRow? && RenderAll(ts, depth)[j].item.UserRow?
    requires RenderAll(ts, depth)[i].item.user.channelID == RenderAll(ts, depth)[j].item.user.channelID
    ensures Rises(RenderAll(ts, depth)[i].item.user, RenderAll(ts, depth)[j].item.user)
    decreases ts
  {
    hide Full, Kids, AtDepth, RenderAll, Render, Base, RootFree, Houses, FullAll, Rises;
    if ts == [] {
      RenderNone(depth);
      return;
    }
    KidsTail(r, parent, ts);
    BaseBelow(r, parent, depth, ts[0].channel.id);
    FullIn(r, ts[0]);
    KidsOfFull(r, ts[0].channel.id, ts[0].kids);
    PartRow(ts, depth, i);
    PartRow(ts, depth, j);
    var p, q := PartOf(ts, depth, i), PartOf(ts, depth, j);
    if p.Later? {
      UsersRise(r, parent, ts[1..], depth, p.k, q.k);
    } else if p.UserPart? && q.UserPart? {
      HousesRise(r, ts[0].channel.id, ts[0].users, p.u, q.u);
    } else if p.UserPart? {
      HousesIn(r, ts[0].channel.id, ts[0].users, p.u);
      OutsideHead(r, parent, ts, depth, j);
    } else if q.Later? {
      ApartTrees(r, parent, ts, depth, i, j);
    } else {
      UsersRise(r, ts[0].channel.id, ts[0].kids, depth + 1, p.k, q.k);
    }
  }

  /** A user behind the head's own users belongs to another channel. */
  lemma OutsideHead(r: Roster, parent: u16, ts: seq<Tree>, depth: nat, j: nat)
    requires Kids(r, parent, ts) && Base(r, parent, depth) && RootFree(r) && ts != []
    requires j < |RenderAll(ts, depth)| && RenderAll(ts, depth)[j].item.UserRow?
    requires PartOf(ts, depth, j).Below? || PartOf(ts, depth, j).Later?
    ensures RenderAll(ts, depth)[j].item.user.channelID != ts[0].channel.id
  {
    hide Full, Kids, AtDepth, RenderAll, Render, Base, RootFree, Houses, FullAll;
    KidsTail(r, parent, ts);
    FullIn(r, ts[0]);
    KidsOfFull(r, ts[0].channel.id, ts[0].kids);
    FirstRows(ts, depth);
    PartRow(ts, depth, j);
    match PartOf(ts, depth, j)
    case Below(k) =>
      var below := RenderAll(ts[0].kids, depth + 1);
      var h := UserHasChannel(r, ts[0].channel.id, ts[0].kids, depth + 1, k);
      SliceAt(RenderAll(ts, depth), 1 + |ts[0].users|, 1 + |ts[0].users| + |below|, h);
      HeadElsewhere(r, parent, ts, depth, 1 + |ts[0].users| + h);
    case Later(k) =>
      var later, at := RenderAll(ts[1..], depth), |Render(ts[0], depth)|;
      var h := UserHasChannel(r, parent, ts[1..], depth, k);
      SliceAt(RenderAll(ts, depth), at, at + |later|, h);
      HeadElsewhere(r, parent, ts, depth, at + h);
  }

  /** Users of one channel do not stand in two trees. */
  lemma ApartTrees(r: Roster, parent: u16, ts: seq<Tree>, depth: nat, i: nat, j: nat)
    requires Kids(r, parent, ts) && Base(r, parent, depth) && RootFree(r) && ts != []
    requires i < j < |RenderAll(ts, depth)|
    requires RenderAll(ts, depth)[i].item.UserRow? && RenderAll(ts, depth)[j].item.UserRow?
    requires PartOf(ts, depth, i).Below? && PartOf(ts, depth, j).Later?
    ensures RenderAll(ts, depth)[i].item.user.channelID != RenderAll(ts, depth)[j].item.user.channelID
  {
    hide Full, Kids, AtDepth, RenderAll, Render, Base, RootFree, Houses, FullAll;
    KidsTail(r, parent, ts);
    FullIn(r, ts[0]);
    KidsOfFull(r, ts[0].channel.id, ts[0].kids);
    FirstRows(ts, depth);
    PartRow(ts, depth, i);
    PartRow(ts, depth, j);
    var rows, n, below := RenderAll(ts, depth), |ts[0].users|, RenderAll(ts[0].kids, depth + 1);
    var later, at := RenderAll(ts[1..], depth), |Render(ts[0], depth)|;
    var g := UserHasChannel(r, ts[0].channel.id, ts[0].kids, depth + 1, PartOf(ts, depth, i).k);
    var h := UserHasChannel(r, parent, ts[1..], depth, PartOf(ts, depth, j).k);
    SliceAt(rows, 1 + n, 1 + n + |below|, g);
    SliceAt(rows, at, at + |later|, h);
    RowsDiffer(r, parent, ts, depth, 1 + n + g, at + h);
  }

  // ----- siblings

  predicate Graded(ts: seq<Tree>) {
    forall i, j :: 0 <= i < j < |ts| ==> !Less(ts[j].channel.name, ts[i].channel.name)
  }

  lemma FullAllGraded(r: Roster, parent: u16, ts: seq<Tree>)
    requires FullAll(r, parent, ts)
    ensures Graded(ts)
  {
    hide Full, Less;
    forall i, j | 0 <= i < j < |ts|
      ensures !Less(ts[j].channel.name, ts[i].channel.name)
    {
      FullIn(r, ts[i]);
      FullIn(r, ts[j]);
      assert !Less(ChannelNames(r)[Ids(ts)[j]], ChannelNames(r)[Ids(ts)[i]]);
    }
  }

  lemma GradedTail(ts: seq<Tree>)
    requires Graded(ts) && ts != []
    ensures Graded(ts[1..])
  {
  }

  /** A channel's distance from the root is one more than its parent's. */
  lemma SameParentSameDepth(r: Roster, a: u16, b: u16, d: nat, e: nat)
    requires AtDepth(r, a, d) && AtDepth(r, b, e) && r.channels[a].parent == r.channels[b].parent
    ensures d == e
    ensures d > 0 ==> Up(r, a, 1) == Up(r, b, 1)
  {
    if d > 0 && e > 0 {
      DepthUnique(r, r.channels[a].parent, d - 1, e - 1);
    }
    UpNone(r, r.channels[a].parent);
  }

  /** The way up goes through the parent. */
  lemma UpSplit(r: Roster, id: u16, k: nat)
    requires id in r.channels && k > 0
    ensures Up(r, id, k) == Up(r, r.channels[id].parent, k - 1)
  {
  }

  lemma {:induction false} SiblingsRise(r: Roster, parent: u16, ts: seq<Tree>, depth: nat, i: nat, j: nat)
    requires Kids(r, parent, ts) && Graded(ts) && Base(r, parent, depth) && RootFree(r)
    requires i < j < |RenderAll(ts, depth)|
    requires RenderAll(ts, depth)[i].item.ChannelRow? && RenderAll(ts, depth)[j].item.ChannelRow?
    requires RenderAll(ts, depth)[i].item.channel.parent == RenderAll(ts, depth)[j].item.channel.parent
    ensures !Less(RenderAll(ts, depth)[j].item.channel.name, RenderAll(ts, depth)[i].item.channel.name)
    decreases ts
  {
    hide Full, Kids, AtDepth, RenderAll, Render, Base, RootFree, Houses, FullAll, Graded, Less, Up;
    if ts == [] {
      RenderNone(depth);
      return;
    }
    var a, b := RenderAll(ts, depth)[i], RenderAll(ts, depth)[j];
    KidsTail(r, parent, ts);
    GradedTail(ts);
    BaseBelow(r, parent, depth, ts[0].channel.id);
    FullIn(r, ts[0]);
    KidsOfFull(r, ts[0].channel.id, ts[0].kids);
    FullAllGraded(r, ts[0].channel.id, ts[0].kids);
    PartRow(ts, depth, i);
    PartRow(ts, depth, j);
    var p, q := PartOf(ts, depth, i), PartOf(ts, depth, j);
    if p.Later? {
      SiblingsRise(r, parent, ts[1..], depth, p.k, q.k);
    } else if q.Later? {
      AcrossTrees(r, parent, ts, depth, i, j);
    } else if p.Head? {
      RowIsAt(r, ts[0].channel.id, ts[0].kids, depth + 1, q.k);
      RowIsPresent(r, ts[0].channel.id, ts[0].kids, depth + 1, q.k);
      SameParentSameDepth(r, a.item.channel.id, b.item.channel.id, depth, b.depth);
    } else {
      SiblingsRise(r, ts[0].channel.id, ts[0].kids, depth + 1, p.k, q.k);
    }
  }

  /** Siblings in different trees are the roots of these trees. */
  lemma AcrossTrees(r: Roster, parent: u16, ts: seq<Tree>, depth: nat, i: nat, j: nat)
    requires Kids(r, parent, ts) && Graded(ts) && Base(r, parent, depth) && RootFree(r) && ts != []
    requires i < j < |RenderAll(ts, depth)|
    requires RenderAll(ts, depth)[i].item.ChannelRow? && RenderAll(ts, depth)[j].item.ChannelRow?
    requires RenderAll(ts, depth)[i].item.channel.parent == RenderAll(ts, depth)[j].item.channel.parent
    requires !PartOf(ts, depth, i).Later? && PartOf(ts, depth, j).Later?
    ensures !Less(RenderAll(ts, depth)[j].item.channel.name, RenderAll(ts, depth)[i].item.channel.name)
  {
    hide Full, AtDepth, RenderAll, Render, Base, RootFree, Houses, FullAll, Less, Up;
    var a, b := RenderAll(ts, depth)[i], RenderAll(ts, depth)[j];
    KidsTail(r, parent, ts);
    PartRow(ts, depth, j);
    FirstTree(r, parent, ts, depth, i);
    RowIsPresent(r, parent, ts, depth, i);
    RowIsPresent(r, parent, ts, depth, j);
    var k := PartOf(ts, depth, j).k;
    RowIsAt(r, parent, ts[1..], depth, k);
    SameParentSameDepth(r, a.item.channel.id, b.item.channel.id, a.depth, b.depth);
    var d := a.depth - depth;
    var t :| 0 <= t < |ts[1..]| && ts[1..][t].channel.id == Up(r, b.item.channel.id, d);
    if d > 0 {
      UpSplit(r, a.item.channel.id, d);
      UpSplit(r, b.item.channel.id, d);
    } else {
      UpNone(r, a.item.channel.id);
      UpNone(r, b.item.channel.id);
      FullIn(r, ts[t + 1]);
      FullIn(r, ts[0]);
    }
  }

  // ----- the whole list

  /** The user as the roster holds it now, with a name, in the lobby or in a channel that reaches the root. */
  predicate Stays(r: Roster, u: User, d: nat) {
    && u.id in r.users && r.users[u.id] == u && u.name != []
    && (if d == 0 then u.channelID == 0 else u.channelID != 0 && AtDepth(r, u.channelID, d - 1))
  }

  lemma UserRowStays(r: Roster, rows: seq<Row>, i: nat)
    requires IsFlattening(r, rows) && RootFree(r) && i < |rows| && rows[i].item.UserRow?
    ensures Stays(r, rows[i].item.user, rows[i].depth)
  {
    hide IsFlattening, AtDepth, RootFree, Owns;
    RowsArePresent(r, rows, i);
    RowsArePreorder(r, rows, i);
    UserRowNamed(r, rows, i);
    if rows[i].depth > 0 {
      var h: nat :| Owns(rows, h, i);
      OwnerStands(r, rows, h, i);
    }
  }

  lemma OwnerStands(r: Roster, rows: seq<Row>, h: nat, i: nat)
    requires IsFlattening(r, rows) && RootFree(r) && Owns(rows, h, i)
    ensures OwnerOf(rows[i].item) != 0 && AtDepth(r, OwnerOf(rows[i].item), rows[i].depth - 1)
  {
    hide IsFlattening, AtDepth;
    RowsAreChannels(r, rows);
    var c := rows[h].item.channel;
    assert Row(rows[h].depth, ChannelRow(c)) in rows;
    assert Stands(r, c, rows[h].depth);
    assert !AtDepth(r, 0, rows[h].depth);
  }

  lemma {:induction false} UserPartNamed(r: Roster, parent: u16, ts: seq<Tree>, depth: nat, i: nat)
    requires Kids(r, parent, ts)
    requires i < |RenderAll(ts, depth)| && RenderAll(ts, depth)[i].item.UserRow?
    ensures RenderAll(ts, depth)[i].item.user.name != []
    decreases ts
  {
    hide Full, Kids, RenderAll, Render, Houses, FullAll;
    if ts == [] {
      RenderNone(depth);
      return;
    }
    KidsTail(r, parent, ts);
    FullIn(r, ts[0]);
    PartRow(ts, depth, i);
    match PartOf(ts, depth, i)
    case Head =>
    case UserPart(u) => HousedNamed(r, ts[0].channel.id, ts[0].users, u);
    case Below(k) =>
      KidsOfFull(r, ts[0].channel.id, ts[0].kids);
      UserPartNamed(r, ts[0].channel.id, ts[0].kids, depth + 1, k);
    case Later(k) => UserPartNamed(r, parent, ts[1..], depth, k);
  }

  lemma HousedNamed(r: Roster, channel: u16, users: seq<User>, u: nat)
    requires Houses(r, channel, users) && u < |users|
    ensures users[u].name != []
  {
    assert UserIds(users)[u] in UserIds(users);
  }

  lemma UserRowNamed(r: Roster, rows: seq<Row>, i: nat)
    requires IsFlattening(r, rows) && i < |rows| && rows[i].item.UserRow?
    ensures rows[i].item.user.name != []
  {
    hide RenderAll, FullAll, Kids, Houses;
    var lobby, forest :| Shows(r, rows, lobby, forest);
    KidsOfFull(r, 0, forest);
    if i < |lobby| {
      HousedNamed(r, 0, lobby, i);
    } else {
      UserPartNamed(r, 0, forest, 0, i - |lobby|);
    }
  }

  lemma StayingHasRow(r: Roster, rows: seq<Row>, u: User, d: nat)
    requires r.Keyed() && IsFlattening(r, rows) && RootFree(r) && Stays(r, u, d)
    ensures Row(d, UserRow(u)) in rows
  {
    hide RenderAll, FullAll, AtDepth, Houses, RootFree, IsFlattening;
    if d == 0 {
      LobbyHasRow(r, rows, u);
    } else {
      RowsAreChannels(r, rows);
      AtDepthIn(r, u.channelID, d - 1);
      var c := r.channels[u.channelID];
      StandsHere(r, u.channelID, d - 1);
      assert Row(d - 1, ChannelRow(c)) in rows;
      var h :| 0 <= h < |rows| && rows[h] == Row(d - 1, ChannelRow(c));
      UsersFollowTheirChannel(r, rows, h);
      var users :| Houses(r, c.id, users) && UsersFollow(rows, h, users);
      var k := HousedAt(r, c.id, users, u);
      SliceAt(rows, h + 1, h + 1 + |users|, k);
    }
  }

  lemma StandsHere(r: Roster, id: u16, d: nat)
    requires AtDepth(r, id, d) && RootFree(r)
    ensures id in r.channels && (r.channels[id].id == id ==> Stands(r, r.channels[id], d))
  {
    hide RootFree;
  }

  lemma HousedAt(r: Roster, channel: u16, users: seq<User>, u: User) returns (k: nat)
    requires Houses(r, channel, users)
    requires u.id in r.users && r.users[u.id] == u && u.name != [] && u.channelID == channel
    ensures k < |users| && users[k] == u
  {
    assert u.id in Members(r, channel);
    assert u.id in UserIds(users);
    k :| 0 <= k < |users| && UserIds(users)[k] == u.id;
  }

  lemma LobbyHasRow(r: Roster, rows: seq<Row>, u: User)
    requires IsFlattening(r, rows) && u.id in r.users && r.users[u.id] == u && u.name != [] && u.channelID == 0
    ensures Row(0, UserRow(u)) in rows
  {
    hide RenderAll, FullAll, Houses;
    var lobby, forest :| Shows(r, rows, lobby, forest);
    var k := HousedAt(r, 0, lobby, u);
    assert rows[k] == Row(0, UserRow(u));
  }

  /** The rows show every named user whose channel is shown or is the lobby, and only those, one step to the right of
      the channel. */
  lemma RowsAreUsers(r: Roster, rows: seq<Row>)
    requires r.Keyed() && IsFlattening(r, rows) && RootFree(r)
    ensures forall u: User, d: nat :: Row(d, UserRow(u)) in rows <==> Stays(r, u, d)
  {
    hide IsFlattening, RootFree, Stays;
    forall u: User, d: nat
      ensures Row(d, UserRow(u)) in rows <==> Stays(r, u, d)
    {
      if Stays(r, u, d) {
        StayingHasRow(r, rows, u, d);
      }
      if Row(d, UserRow(u)) in rows {
        var i :| 0 <= i < |rows| && rows[i] == Row(d, UserRow(u));
        UserRowStays(r, rows, i);
      }
    }
  }

  /** Names never go down in the dictionary among the channels of one parent, nor among the users of one channel, and no
      user has two rows. */
  lemma NamesRise(r: Roster, rows: seq<Row>, i: nat, j: nat)
    requires IsFlattening(r, rows) && RootFree(r) && i < j < |rows|
    ensures rows[i].item.ChannelRow? && rows[j].item.ChannelRow? && OwnerOf(rows[i].item) == OwnerOf(rows[j].item) ==>
              !Precedes(rows[j].item.channel.name, rows[i].item.channel.name)
    ensures rows[i].item.UserRow? && rows[j].item.UserRow? && OwnerOf(rows[i].item) == OwnerOf(rows[j].item) ==>
              rows[i].item.user.id != rows[j].item.user.id && !Precedes(rows[j].item.user.name, rows[i].item.user.name)
  {
    hide RenderAll, FullAll, Kids, Houses, AtDepth, RootFree, Graded, Less, Precedes;
    var lobby, forest :| Shows(r, rows, lobby, forest);
    KidsOfFull(r, 0, forest);
    FullAllGraded(r, 0, forest);
    var n := |lobby|;
    if rows[i].item.ChannelRow? && rows[j].item.ChannelRow? && OwnerOf(rows[i].item) == OwnerOf(rows[j].item) {
      SiblingsRise(r, 0, forest, 0, i - n, j - n);
      LessIffPrecedes(rows[j].item.channel.name, rows[i].item.channel.name);
    }
    if rows[i].item.UserRow? && rows[j].item.UserRow? && OwnerOf(rows[i].item) == OwnerOf(rows[j].item) {
      if j < n {
        HousesRise(r, 0, lobby, i, j);
      } else if i >= n {
        UsersRise(r, 0, forest, 0, i - n, j - n);
      } else {
        HousesIn(r, 0, lobby, i);
        InForest(r, forest, j - n);
      }
      LessIffPrecedes(rows[j].item.user.name, rows[i].item.user.name);
    }
  }

  /** A user in the forest does not belong to the lobby. */
  lemma InForest(r: Roster, forest: seq<Tree>, k: nat)
    requires Kids(r, 0, forest) && RootFree(r) && k < |RenderAll(forest, 0)| && RenderAll(forest, 0)[k].item.UserRow?
    ensures RenderAll(forest, 0)[k].item.user.channelID != 0
  {
    hide RenderAll, Kids, AtDepth;
    var h := UserHasChannel(r, 0, forest, 0, k);
    RowIsAt(r, 0, forest, 0, h);
    assert !AtDepth(r, 0, RenderAll(forest, 0)[h].depth);
  }
}
