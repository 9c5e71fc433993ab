/** The connection store's copy of the rows, rebuilt only when an event changes the tree. */
module ConnectionStore {
  import opened Bytes
  import opened Roster
  import opened RosterRows

  /** What the comparison before an event decides. */
  predicate TreeChanged(r: Roster, event: Event) {
    match event
    case UserUpserted(user) => !(user.id in r.users && r.users[user.id] == user)
    case UserRemoved(id) => id in r.users
    case ChannelUpserted(channel) => !(channel.id in r.channels && r.channels[channel.id] == channel)
    case ChannelRemoved(id) => id in r.channels
    case TalkStarted(_) => false
    case TalkEnded(_) => false
    case Disconnected => false
    case OtherEvent => false
  }

  /** The comparison is exact: the tree part of the roster changes if and only if it says so. */
  lemma TreeChangedIff(r: Roster, event: Event)
    requires r.Keyed()
    ensures TreeChanged(r, event) <==> Apply(r, event).channels != r.channels || Apply(r, event).users != r.users
  {
    match event
    case UserUpserted(user) =>
      if TreeChanged(r, event) {
        assert Apply(r, event).users[user.id] == user;
      } else {
        assert r.users[user.id := user] == r.users;
      }
    case UserRemoved(id) =>
      assert id !in Apply(r, event).users;
      assert id !in r.users ==> r.users - {id} == r.users;
    case ChannelUpserted(channel) =>
      if TreeChanged(r, event) {
        assert Apply(r, event).channels[channel.id] == channel;
      } else {
        assert r.channels[channel.id := channel] == r.channels;
      }
    case ChannelRemoved(id) =>
      assert id !in Apply(r, event).channels;
      assert id !in r.channels ==> r.channels - {id} == r.channels;
    case TalkStarted(_) =>
    case TalkEnded(_) =>
    case Disconnected =>
    case OtherEvent =>
  }

  /** Rows look at channels and users only. */
  lemma {:induction false} FullSame(a: Roster, b: Roster, t: Tree)
    requires a.channels == b.channels && a.users == b.users && Full(a, t)
    ensures Full(b, t)
    decreases t
  {
    hide Lists;
    SameParts(a, b, t.channel.id);
    forall i | 0 <= i < |t.kids|
      ensures Full(b, t.kids[i])
    {
      FullSame(a, b, t.kids[i]);
    }
  }

  lemma SameParts(a: Roster, b: Roster, id: u16)
    requires a.channels == b.channels && a.users == b.users
    ensures Members(a, id) == Members(b, id) && Children(a, id) == Children(b, id)
    ensures ChannelNames(a) == ChannelNames(b) && UserNames(a) == UserNames(b)
  {
  }

  lemma FlatteningSame(a: Roster, b: Roster, rows: seq<Row>)
    requires a.channels == b.channels && a.users == b.users && IsFlattening(a, rows)
    ensures IsFlattening(b, rows)
  {
    hide Lists, Full;
    var lobby, forest :| Shows(a, rows, lobby, forest);
    SameParts(a, b, 0);
    forall i | 0 <= i < |forest|
      ensures Full(b, forest[i])
    {
      FullSame(a, b, forest[i]);
    }
    assert Shows(b, rows, lobby, forest);
  }

  /** Why the comparison matters: rows that still show the old record of a changed user are not a flattening. */
  lemma StaleUser(r: Roster, user: User, rows: seq<Row>, i: nat)
    requires r.Keyed() && TreeChanged(r, UserUpserted(user)) && user.id in r.users
    requires i < |rows| && rows[i].item == UserRow(r.users[user.id])
    ensures !IsFlattening(Apply(r, UserUpserted(user)), rows)
  {
    hide IsFlattening;
    if IsFlattening(Apply(r, UserUpserted(user)), rows) {
      RowsArePresent(Apply(r, UserUpserted(user)), rows, i);
    }
  }

  /** The same for channels. */
  lemma StaleChannel(r: Roster, channel: Channel, rows: seq<Row>, i: nat)
    requires r.Keyed() && TreeChanged(r, ChannelUpserted(channel)) && channel.id in r.channels
    requires i < |rows| && rows[i].item == ChannelRow(r.channels[channel.id])
    ensures !IsFlattening(Apply(r, ChannelUpserted(channel)), rows)
  {
    hide IsFlattening;
    if IsFlattening(Apply(r, ChannelUpserted(channel)), rows) {
      RowsArePresent(Apply(r, ChannelUpserted(channel)), rows, i);
    }
  }

  class Store {
    var roster: Roster
    var treeRows: seq<Row>

    /** The rows are a flattening of the present roster, although they are not rebuilt for every event. */
    ghost predicate Valid()
      reads this
    {
      roster.Keyed() && RootFree(roster) && IsFlattening(roster, treeRows)
    }

    constructor ()
      ensures Valid() && roster == EMPTY && treeRows == []
    {
      roster := EMPTY;
      treeRows := [];
      NothingShown();
    }

    /** The reset at the start of a session. */
    method RunSession()
      modifies this
      ensures Valid() && roster == EMPTY && treeRows == []
    {
      roster := EMPTY;
      treeRows := [];
      NothingShown();
    }

    method ApplyRosterEvent(event: Event)
      requires Valid() && RootFree(Apply(roster, event))
      modifies this
      ensures Valid() && roster == Apply(old(roster), event)
      ensures roster.channels == old(roster).channels && roster.users == old(roster).users ==> treeRows == old(treeRows)
    {
      hide IsFlattening;
      var treeChanged := TreeChanged(roster, event);
      TreeChangedIff(roster, event);
      ApplyKeyed(roster, event);
      ghost var before := roster;
      roster := Apply(roster, event);
      if treeChanged {
        treeRows := FlattenedTree(roster);
      } else {
        FlatteningSame(before, roster, treeRows);
      }
    }
  }

  lemma NothingShown()
    ensures IsFlattening(EMPTY, [])
  {
    assert UserRows([], 0) + RenderAll([], 0) == [];
    assert Shows(EMPTY, [], [], []);
  }
}
