/** Channels as values: the order of the list, and what update, removal and the "move before" message do to it. */
module Channels {
  import opened Bytes

  datatype Channel = Channel(id: u16, parent: u16, name: seq<byte>)

  predicate Distinct(s: seq<Channel>) {
    forall i, j :: 0 <= i < j < |s| ==> s[i].id != s[j].id
  }

  /** The position of the first channel with this id, or |s|. */
  function Find(s: seq<Channel>, id: u16): (i: nat)
    ensures i <= |s|
    ensures i < |s| ==> s[i].id == id
    ensures forall j :: 0 <= j < i ==> s[j].id != id
  {
    if s == [] || s[0].id == id then 0 else 1 + Find(s[1..], id)
  }

  function Updated(s: seq<Channel>, c: Channel): seq<Channel> {
    var i := Find(s, c.id);
    if i < |s| then s[i := c] else s + [c]
  }

  function Removed(s: seq<Channel>, id: u16): seq<Channel> {
    var i := Find(s, id);
    if i < |s| then s[..i] + s[i + 1..] else s
  }

  /** Where element m stood before element i moved in front of element t. */
  function Origin(i: nat, t: nat, m: nat): (k: nat)
    ensures i < t && m < t ==> k < t
    ensures t <= i && m <= i ==> k <= i
    ensures m > i && m >= t ==> k == m
  {
    if i < t then (if m < i then m else if m < t - 1 then m + 1 else if m == t - 1 then i else m)
    else (if m < t then m else if m == t then i else if m <= i then m - 1 else m)
  }

  /** Element i taken out and put back in front of element t. */
  function MovedTo<T>(s: seq<T>, i: nat, t: nat): (r: seq<T>)
    requires i < |s| && t < |s|
    ensures |r| == |s|
    ensures forall m :: 0 <= m < |r| ==> r[m] == s[Origin(i, t, m)]
  {
    seq(|s|, m requires 0 <= m < |s| => s[Origin(i, t, m)])
  }

  /** Message 0x3b for a channel: nothing happens unless both channels are in the list. */
  function Moved(s: seq<Channel>, id: u16, target: u16): seq<Channel> {
    var i, t := Find(s, id), Find(s, target);
    if i < |s| && t < |s| then MovedTo(s, i, t) else s
  }

  /** `v3_get_channel_sort`. */
  function Sort(s: seq<Channel>, left: u16, right: u16): int {
    var l, r := Find(s, left), Find(s, right);
    if l < |s| && r < |s| && l != r then (if l < r then -1 else 1) else 0
  }

  // ----- what the operations mean

  lemma FindUnique(s: seq<Channel>, i: nat)
    requires Distinct(s) && i < |s|
    ensures Find(s, s[i].id) == i
  {
    assert Find(s, s[i].id) <= i;
  }

  /** Where element k of the old list stands in the new one. */
  function Place(i: nat, t: nat, k: nat): nat {
    if i < t then (if k < i then k else if k == i then t - 1 else if k < t then k - 1 else k)
    else (if k < t then k else if k == i then t else if k < i then k + 1 else k)
  }

  lemma MovedPlaces<T>(s: seq<T>, i: nat, t: nat, k: nat)
    requires i < |s| && t < |s| && k < |s|
    ensures Place(i, t, k) < |s| && MovedTo(s, i, t)[Place(i, t, k)] == s[k]
  {
  }

  lemma MovedToDistinct(s: seq<Channel>, i: nat, t: nat)
    requires Distinct(s) && i < |s| && t < |s|
    ensures Distinct(MovedTo(s, i, t))
  {
    var r := MovedTo(s, i, t);
    forall m, n | 0 <= m < n < |r|
      ensures r[m].id != r[n].id
    {
      var a, b := Origin(i, t, m), Origin(i, t, n);
      assert a != b;
      assert if a < b then s[a].id != s[b].id else s[b].id != s[a].id;
    }
  }

  /** A move keeps the ids distinct and loses no channel. */
  lemma MovedDistinct(s: seq<Channel>, id: u16, target: u16)
    requires Distinct(s)
    ensures Distinct(Moved(s, id, target))
  {
    if Find(s, id) < |s| && Find(s, target) < |s| {
      MovedToDistinct(s, Find(s, id), Find(s, target));
    }
  }

  lemma MovedMembers(s: seq<Channel>, id: u16, target: u16, x: u16)
    ensures |Moved(s, id, target)| == |s|
    ensures Find(Moved(s, id, target), x) < |s| <==> Find(s, x) < |s|
  {
    hide MovedTo;
    var i, t := Find(s, id), Find(s, target);
    if i < |s| && t < |s| {
      var r := MovedTo(s, i, t);
      if Find(s, x) < |s| {
        MovedPlaces(s, i, t, Find(s, x));
        assert r[Place(i, t, Find(s, x))].id == x;
      }
      if Find(r, x) < |r| {
        assert s[Origin(i, t, Find(r, x))].id == x;
      }
    }
  }

  lemma MovedFind(s: seq<Channel>, id: u16, target: u16, x: u16)
    requires Distinct(s) && Find(s, id) < |s| && Find(s, target) < |s| && Find(s, x) < |s|
    ensures Find(Moved(s, id, target), x) == Place(Find(s, id), Find(s, target), Find(s, x))
  {
    hide MovedTo, Find;
    var i, t, k := Find(s, id), Find(s, target), Find(s, x);
    MovedDistinct(s, id, target);
    MovedPlaces(s, i, t, k);
    FindUnique(Moved(s, id, target), Place(i, t, k));
  }

  /** After a move the channel stands immediately before its target. */
  lemma MovedIsBefore(s: seq<Channel>, id: u16, target: u16)
    requires Distinct(s) && Find(s, id) < |s| && Find(s, target) < |s| && id != target
    ensures Find(Moved(s, id, target), id) + 1 == Find(Moved(s, id, target), target)
    ensures Sort(Moved(s, id, target), id, target) == -1
  {
    hide MovedTo, Find, Distinct;
    MovedFind(s, id, target, id);
    MovedFind(s, id, target, target);
    MovedMembers(s, id, target, id);
    var i, t := Find(s, id), Find(s, target);
    assert s[i].id == id && s[t].id == target;
    assert i != t;
  }

  /** The relative order of all other channels, as the sort function reports it, is the same as before. */
  lemma MovedKeepsOrder(s: seq<Channel>, id: u16, target: u16, x: u16, y: u16)
    requires Distinct(s) && x != id && y != id
    ensures Sort(Moved(s, id, target), x, y) == Sort(s, x, y)
  {
    hide MovedTo, Find, Distinct;
    MovedMembers(s, id, target, x);
    MovedMembers(s, id, target, y);
    if Find(s, id) < |s| && Find(s, target) < |s| && Find(s, x) < |s| && Find(s, y) < |s| {
      assert s[Find(s, x)].id == x && s[Find(s, y)].id == y && s[Find(s, id)].id == id;
      MovedFind(s, id, target, x);
      MovedFind(s, id, target, y);
    }
  }

  /** Moving a channel before itself, or before its successor, changes nothing. */
  lemma MovedInPlace<T>(s: seq<T>, i: nat, t: nat)
    requires i < |s| && t < |s| && (i == t || i + 1 == t)
    ensures MovedTo(s, i, t) == s
  {
  }

  lemma UpdatedDistinct(s: seq<Channel>, c: Channel)
    requires Distinct(s)
    ensures Distinct(Updated(s, c))
  {
  }

  lemma WithoutAt<T>(s: seq<T>, i: nat, k: nat)
    requires i < |s| && k < |s| - 1
    ensures (s[..i] + s[i + 1..])[k] == s[if k < i then k else k + 1]
  {
  }

  lemma RemovedDistinct(s: seq<Channel>, id: u16)
    requires Distinct(s)
    ensures Distinct(Removed(s, id))
    ensures Find(Removed(s, id), id) == |Removed(s, id)|
  {
    hide Find;
    var i := Find(s, id);
    if i < |s| {
      hide Removed;
      var r := s[..i] + s[i + 1..];
      forall m, n | 0 <= m < n < |r|
        ensures r[m].id != r[n].id
      {
        WithoutAt(s, i, m);
        WithoutAt(s, i, n);
      }
      forall m | 0 <= m < |r|
        ensures r[m].id != id
      {
        WithoutAt(s, i, m);
      }
      RemovedIs(s, id);
    }
  }

  lemma RemovedIs(s: seq<Channel>, id: u16)
    requires Find(s, id) < |s|
    ensures Removed(s, id) == s[..Find(s, id)] + s[Find(s, id) + 1..]
  {
  }

  // ----- positions

  /** Channel x stands before channel y. */
  ghost predicate Before(s: seq<Channel>, x: u16, y: u16) {
    exists i, j :: 0 <= i < j < |s| && s[i].id == x && s[j].id == y
  }

  /** The sort function reports which of two channels stands first, and 0 unless both are there. */
  lemma SortMeans(s: seq<Channel>, x: u16, y: u16)
    requires Distinct(s)
    ensures Sort(s, x, y) == -1 <==> Before(s, x, y)
    ensures Sort(s, x, y) == 1 <==> Before(s, y, x)
    ensures Sort(s, x, y) in {-1, 0, 1}
  {
    var l, r := Find(s, x), Find(s, y);
    if l < r < |s| {
      assert s[l].id == x && s[r].id == y;
    }
    if r < l < |s| {
      assert s[l].id == x && s[r].id == y;
    }
    if Before(s, x, y) {
      var i, j :| 0 <= i < j < |s| && s[i].id == x && s[j].id == y;
      FindUnique(s, i);
      FindUnique(s, j);
    }
    if Before(s, y, x) {
      var i, j :| 0 <= i < j < |s| && s[i].id == y && s[j].id == x;
      FindUnique(s, i);
      FindUnique(s, j);
    }
  }

  /** A channel that was there is replaced where it stands, and a new one goes to the end; nothing else moves. */
  lemma UpdatedPlaces(s: seq<Channel>, c: Channel)
    requires Distinct(s)
    ensures |Updated(s, c)| == |s| || |Updated(s, c)| == |s| + 1
    ensures |Updated(s, c)| == |s| + 1 <==> forall k :: 0 <= k < |s| ==> s[k].id != c.id
    ensures forall k :: 0 <= k < |s| ==> Updated(s, c)[k] == if s[k].id == c.id then c else s[k]
    ensures |Updated(s, c)| == |s| + 1 ==> Updated(s, c)[|s|] == c
  {
    var i := Find(s, c.id);
    if i < |s| {
      forall k | 0 <= k < |s|
        ensures s[k].id == c.id <==> k == i
      {
      }
    }
  }
}
