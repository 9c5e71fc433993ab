/** When a channel's printed path leads back to the channel: an exact condition, and the forests that always meet it. */
module ChannelRoundTrip {
  import opened Bytes
  import opened Channels
  import opened ChannelPath

  predicate PlainName(name: seq<byte>) {
    name != [] && SLASH !in name && |name| <= NAME_MAX
  }

  /** Each channel of the line has a plain name and is the first in the list with that parent and name. */
  predicate Resolvable(s: seq<Channel>, line: seq<Channel>, parent: u16) {
    line == [] || (
      && PlainName(line[0].name)
      && (var i := Child(s, parent, line[0].name); i < |s| && s[i] == line[0])
      && Resolvable(s, line[1..], line[0].id))
  }

  predicate NonzeroIds(s: seq<Channel>) {
    forall i :: 0 <= i < |s| ==> s[i].id != 0
  }

  // ----- splitting what was joined

  lemma {:induction false} SplitPlain(name: seq<byte>)
    requires SLASH !in name
    ensures Split(name) == [name]
  {
    if name != [] {
      SplitPlain(name[1..]);
      assert [name[0]] + name[1..] == name;
    }
  }

  lemma {:induction false} SplitAtSlash(name: seq<byte>, rest: seq<byte>)
    requires SLASH !in name
    ensures Split(name + [SLASH] + rest) == [name] + Split(rest)
  {
    var path := name + [SLASH] + rest;
    if name == [] {
      assert path == [SLASH] + rest;
      assert path[1..] == rest;
    } else {
      SplitAtSlash(name[1..], rest);
      assert path[1..] == name[1..] + [SLASH] + rest;
      assert [name[0]] + name[1..] == name;
    }
  }

  lemma {:induction false} SplitJoin(names: seq<seq<byte>>)
    requires names != [] && forall i :: 0 <= i < |names| ==> SLASH !in names[i]
    ensures Split(Join(names)) == names
  {
    if |names| == 1 {
      SplitPlain(names[0]);
    } else {
      SplitJoin(names[1..]);
      SplitAtSlash(names[0], Join(names[1..]));
      assert [names[0]] + names[1..] == names;
    }
  }

  function Slashes(path: seq<byte>): nat {
    if path == [] then 0 else (if path[0] == SLASH then 1 else 0) + Slashes(path[1..])
  }

  lemma {:induction false} SlashesAdd(a: seq<byte>, b: seq<byte>)
    ensures Slashes(a + b) == Slashes(a) + Slashes(b)
  {
    if a == [] {
      assert a + b == b;
    } else {
      SlashesAdd(a[1..], b);
      assert (a + b)[1..] == a[1..] + b;
    }
  }

  lemma {:induction false} SplitCounts(path: seq<byte>)
    ensures |Split(path)| == 1 + Slashes(path)
  {
    if path != [] {
      SplitCounts(path[1..]);
    }
  }

  lemma {:induction false} NoSlashes(path: seq<byte>)
    ensures Slashes(path) == 0 <==> SLASH !in path
  {
    if path != [] {
      NoSlashes(path[1..]);
    }
  }

  /** A joined path has a separator between two names and those inside the names. */
  lemma {:induction false} JoinCounts(names: seq<seq<byte>>)
    requires names != []
    ensures Slashes(Join(names)) >= |names| - 1
    ensures Slashes(Join(names)) == |names| - 1 ==> forall i :: 0 <= i < |names| ==> SLASH !in names[i]
  {
    NoSlashes(names[0]);
    if |names| > 1 {
      JoinCounts(names[1..]);
      SlashesAdd(names[0], [SLASH] + Join(names[1..]));
      assert names[0] + [SLASH] + Join(names[1..]) == names[0] + ([SLASH] + Join(names[1..]));
      assert ([SLASH] + Join(names[1..]))[1..] == Join(names[1..]);
      if Slashes(Join(names)) == |names| - 1 {
        forall i | 0 <= i < |names|
          ensures SLASH !in names[i]
        {
          if i > 0 {
            assert names[i] == names[1..][i - 1];
          }
        }
      }
    }
  }

  // ----- a resolvable line resolves

  lemma {:induction false} ResolveLine(s: seq<Channel>, line: seq<Channel>, parent: u16)
    requires Resolvable(s, line, parent)
    ensures Resolve(s, Names(line), parent) == if line == [] then parent else line[|line| - 1].id
  {
    if line != [] {
      assert Names(line)[1..] == Names(line[1..]);
      ResolveLine(s, line[1..], line[0].id);
    }
  }

  lemma {:induction false} ResolvableNames(s: seq<Channel>, line: seq<Channel>, parent: u16)
    requires Resolvable(s, line, parent)
    ensures forall i :: 0 <= i < |line| ==> PlainName(line[i].name)
  {
    if line != [] {
      ResolvableNames(s, line[1..], line[0].id);
      forall i | 0 <= i < |line|
        ensures PlainName(line[i].name)
      {
        if i > 0 {
          assert line[i] == line[1..][i - 1];
        }
      }
    }
  }

  lemma LineageEnd(s: seq<Channel>, id: u16, d: nat)
    requires Ends(s, id, d) && Find(s, id) < |s|
    ensures var line := Lineage(s, id, d); line != [] && line[|line| - 1] == s[Find(s, id)]
  {
  }

  lemma JoinNonempty(names: seq<seq<byte>>)
    requires names != [] && names[0] != []
    ensures Join(names) != []
  {
  }

  // ----- a path that resolves to the channel has that channel's line

  /** The channels that the lookup passes through. */
  function Passed(s: seq<Channel>, parts: seq<seq<byte>>, parent: u16): seq<Channel> {
    if parts == [] || |parts[0]| > NAME_MAX then []
    else
      var i := Child(s, parent, parts[0]);
      if i == |s| then [] else [s[i]] + Passed(s, parts[1..], s[i].id)
  }

  /** A line of channels of the list, each the child of the one before. */
  predicate Descends(s: seq<Channel>, line: seq<Channel>, parent: u16) {
    line == [] || (line[0] in s && line[0].parent == parent && Descends(s, line[1..], line[0].id))
  }

  lemma {:induction false} PassedAll(s: seq<Channel>, parts: seq<seq<byte>>, parent: u16)
    requires NonzeroIds(s) && Resolve(s, parts, parent) != 0
    ensures var line := Passed(s, parts, parent); (
              && |line| == |parts|
              && Descends(s, line, parent)
              && (parts != [] ==> line[|line| - 1].id == Resolve(s, parts, parent)))
  {
    hide Child;
    if parts != [] {
      var i := Child(s, parent, parts[0]);
      PassedAll(s, parts[1..], s[i].id);
      assert ([s[i]] + Passed(s, parts[1..], s[i].id))[1..] == Passed(s, parts[1..], s[i].id);
    }
  }

  lemma {:induction false} DescendsPrefix(s: seq<Channel>, line: seq<Channel>, parent: u16)
    requires Descends(s, line, parent) && line != []
    ensures var n := |line| - 1; (
              && Descends(s, line[..n], parent)
              && line[n] in s
              && line[n].parent == if n == 0 then parent else line[n - 1].id)
  {
    var n := |line| - 1;
    if n > 0 {
      DescendsPrefix(s, line[1..], line[0].id);
      assert line[1..][..n - 1] == line[..n][1..];
    }
  }

  lemma {:induction false} DescendsIsLineage(s: seq<Channel>, line: seq<Channel>, id: u16, d: nat)
    requires Distinct(s) && NonzeroIds(s) && Ends(s, id, d)
    requires line != [] && Descends(s, line, 0) && line[|line| - 1].id == id
    ensures Lineage(s, id, d) == line
    decreases |line|
  {
    hide Distinct;
    var n := |line| - 1;
    DescendsPrefix(s, line, 0);
    var i :| 0 <= i < |s| && s[i] == line[n];
    FindUnique(s, i);
    if n > 0 {
      DescendsPrefix(s, line[..n], 0);
      assert line[n - 1].id != 0;
      DescendsIsLineage(s, line[..n], s[i].parent, d - 1);
      assert line[..n] + [line[n]] == line;
    } else {
      assert line == [line[0]];
    }
  }

  lemma {:induction false} PassedResolvable(s: seq<Channel>, line: seq<Channel>, parent: u16)
    requires Passed(s, Names(line), parent) == line
    requires forall i :: 0 <= i < |line| ==> line[i].name != [] && SLASH !in line[i].name
    ensures Resolvable(s, line, parent)
  {
    if line != [] {
      assert Names(line)[1..] == Names(line[1..]);
      var i := Child(s, parent, line[0].name);
      assert line == [s[i]] + Passed(s, Names(line[1..]), s[i].id);
      assert line[1..] == Passed(s, Names(line[1..]), s[i].id);
      PassedResolvable(s, line[1..], line[0].id);
    }
  }

  lemma ForwardTrip(s: seq<Channel>, id: u16, d: nat)
    requires Find(s, id) < |s| && Ends(s, id, d)
    requires Resolvable(s, Lineage(s, id, d), 0)
    ensures IdOf(s, Join(Names(Lineage(s, id, d)))) == id
  {
    hide Find, Lineage, Ends, Join, Split, Resolve;
    var line := Lineage(s, id, d);
    LineageEnd(s, id, d);
    ResolvableNames(s, line, 0);
    SplitJoin(Names(line));
    JoinNonempty(Names(line));
    ResolveLine(s, line, 0);
  }

  lemma BackwardTrip(s: seq<Channel>, id: u16, d: nat)
    requires Distinct(s) && NonzeroIds(s) && Find(s, id) < |s| && Ends(s, id, d)
    requires IdOf(s, Join(Names(Lineage(s, id, d)))) == id
    ensures Resolvable(s, Lineage(s, id, d), 0)
  {
    hide Distinct, Find, Lineage, Ends, Join, Split, Resolve, Resolvable, Passed, Descends;
    var line := Lineage(s, id, d);
    var path := Join(Names(line));
    LineageEnd(s, id, d);
    assert id != 0 by {
      assert s[Find(s, id)].id == id;
    }
    var parts := Split(path);
    PassedAll(s, parts, 0);
    DescendsIsLineage(s, Passed(s, parts, 0), id, d);
    SplitCounts(path);
    JoinCounts(Names(line));
    SplitJoin(Names(line));
    forall i | 0 <= i < |line|
      ensures line[i].name != [] && SLASH !in line[i].name
    {
      assert Names(line)[i] in parts && SLASH !in Names(line)[i];
    }
    PassedResolvable(s, line, 0);
  }

  /** Printing a channel's path and looking it up gives the channel back exactly when every channel on the way down has
      a nonempty name of at most 32 bytes without a separator, and is the first of its parent's channels with that
      name. */
  lemma RoundTripIff(s: seq<Channel>, id: u16, d: nat)
    requires Distinct(s) && NonzeroIds(s) && Find(s, id) < |s| && Ends(s, id, d)
    ensures PathOf(s, id, d).Some?
    ensures IdOf(s, PathOf(s, id, d).value) == id <==> Resolvable(s, Lineage(s, id, d), 0)
  {
    hide Distinct, Lineage, Ends, Join, IdOf, Resolvable;
    LineageEnd(s, id, d);
    if Resolvable(s, Lineage(s, id, d), 0) {
      ForwardTrip(s, id, d);
    }
    if IdOf(s, PathOf(s, id, d).value) == id {
      BackwardTrip(s, id, d);
    }
  }

  // ----- any text that is looked up

  lemma {:induction false} JoinSplit(path: seq<byte>)
    ensures Join(Split(path)) == path
  {
    if path != [] {
      var rest := Split(path[1..]);
      JoinSplit(path[1..]);
      if path[0] == SLASH {
        assert ([[]] + rest)[1..] == rest;
        assert Join([[]] + rest) == [] + [SLASH] + Join(rest);
      } else {
        JoinGrows(path[0], rest);
      }
    }
  }

  lemma JoinGrows(b: byte, names: seq<seq<byte>>)
    requires names != []
    ensures Join([[b] + names[0]] + names[1..]) == [b] + Join(names)
  {
    var more := [[b] + names[0]] + names[1..];
    assert more[1..] == names[1..];
    if |names| > 1 {
      assert [b] + names[0] + [SLASH] + Join(names[1..]) == [b] + (names[0] + [SLASH] + Join(names[1..]));
    }
  }

  function Clips(line: seq<Channel>): (r: seq<seq<byte>>)
    ensures |r| == |line|
    ensures forall i :: 0 <= i < |r| ==> r[i] == Clip(line[i].name)
  {
    seq(|line|, i requires 0 <= i < |line| => Clip(line[i].name))
  }

  /** Each channel of the line is the first child of the one before with the same first 32 bytes of its name. */
  predicate Leads(s: seq<Channel>, line: seq<Channel>, parent: u16) {
    line == [] || (
      && Clip(line[0].name) != [] && SLASH !in Clip(line[0].name)
      && (var i := Child(s, parent, Clip(line[0].name)); i < |s| && s[i] == line[0])
      && Leads(s, line[1..], line[0].id))
  }

  lemma {:induction false} LeadsParts(s: seq<Channel>, line: seq<Channel>, parent: u16)
    requires Leads(s, line, parent)
    ensures forall i :: 0 <= i < |line| ==> Clips(line)[i] != [] && SLASH !in Clips(line)[i]
    ensures Resolve(s, Clips(line), parent) == if line == [] then parent else line[|line| - 1].id
  {
    hide Child;
    if line != [] {
      assert Clips(line)[1..] == Clips(line[1..]);
      LeadsParts(s, line[1..], line[0].id);
      forall i | 0 <= i < |line|
        ensures Clips(line)[i] != [] && SLASH !in Clips(line)[i]
      {
        if i > 0 {
          assert Clips(line)[i] == Clips(line[1..])[i - 1];
        }
      }
    }
  }

  lemma {:induction false} PassedLeads(s: seq<Channel>, parts: seq<seq<byte>>, parent: u16)
    requires |Passed(s, parts, parent)| == |parts|
    requires forall i :: 0 <= i < |parts| ==> parts[i] != [] && SLASH !in parts[i]
    ensures var line := Passed(s, parts, parent); Leads(s, line, parent) && Clips(line) == parts
  {
    if parts != [] {
      var line := Passed(s, parts, parent);
      var i := Child(s, parent, parts[0]);
      assert line[1..] == Passed(s, parts[1..], s[i].id);
      PassedLeads(s, parts[1..], s[i].id);
      assert IsChild(s[i], parent, parts[0]);
      assert Clips(line) == [parts[0]] + Clips(line[1..]);
    }
  }

  lemma {:induction false} PartsPlain(path: seq<byte>)
    ensures forall i :: 0 <= i < |Split(path)| ==> SLASH !in Split(path)[i]
  {
    if path != [] {
      PartsPlain(path[1..]);
    }
  }

  /** Looking up any text gives a channel exactly when the text joins the clipped names on the channel's way down, and
      every channel on the way is the first that its clipped name finds. */
  lemma LookupIff(s: seq<Channel>, id: u16, d: nat, text: seq<byte>)
    requires Distinct(s) && NonzeroIds(s) && Find(s, id) < |s| && Ends(s, id, d)
    ensures var line := Lineage(s, id, d); (
              IdOf(s, text) == id <==> text == Join(Clips(line)) && Leads(s, line, 0))
  {
    hide Distinct, Find, Lineage, Ends, Join, Split, Resolve, Leads, Passed, Descends;
    var line := Lineage(s, id, d);
    LineageEnd(s, id, d);
    assert id != 0 by {
      assert s[Find(s, id)].id == id;
    }
    if IdOf(s, text) == id {
      var parts := Split(text);
      PassedAll(s, parts, 0);
      DescendsIsLineage(s, Passed(s, parts, 0), id, d);
      PartsPlain(text);
      assert forall i :: 0 <= i < |parts| ==> parts[i] in parts;
      PassedLeads(s, parts, 0);
      JoinSplit(text);
    }
    if text == Join(Clips(line)) && Leads(s, line, 0) {
      LeadsParts(s, line, 0);
      SplitJoin(Clips(line));
      JoinNonempty(Clips(line));
    }
  }

  /** With names of at most 32 bytes nothing is clipped. */
  lemma {:induction false} LeadsShort(s: seq<Channel>, line: seq<Channel>, parent: u16)
    requires forall i :: 0 <= i < |line| ==> |line[i].name| <= NAME_MAX
    ensures Clips(line) == Names(line)
    ensures Leads(s, line, parent) <==> Resolvable(s, line, parent)
  {
    hide Child;
    if line != [] {
      LeadsShort(s, line[1..], line[0].id);
    }
  }

  // ----- forests in which every path leads back

  /** Plain names, distinct among the channels of one parent, and every parent is the root or in the list. */
  predicate Forest(s: seq<Channel>) {
    && Distinct(s) && NonzeroIds(s)
    && (forall i :: 0 <= i < |s| ==> PlainName(s[i].name))
    && (forall i, j :: 0 <= i < j < |s| && s[i].parent == s[j].parent ==> s[i].name != s[j].name)
    && (forall i :: 0 <= i < |s| ==> s[i].parent == 0 || Find(s, s[i].parent) < |s|)
  }

  lemma ForestChild(s: seq<Channel>, i: nat)
    requires Forest(s) && i < |s|
    ensures Child(s, s[i].parent, s[i].name) == i
  {
    hide Child, Find, Distinct;
    assert IsChild(s[i], s[i].parent, s[i].name);
    forall j | 0 <= j < i
      ensures !IsChild(s[j], s[i].parent, s[i].name)
    {
      assert PlainName(s[j].name);
    }
    ChildUnique(s, s[i].parent, s[i].name, i);
  }

  lemma {:induction false} ResolvableSnoc(s: seq<Channel>, line: seq<Channel>, parent: u16, c: Channel)
    requires Resolvable(s, line, parent) && PlainName(c.name)
    requires c.parent == if line == [] then parent else line[|line| - 1].id
    requires var i := Child(s, c.parent, c.name); i < |s| && s[i] == c
    ensures Resolvable(s, line + [c], parent)
  {
    hide Child;
    if line == [] {
      assert (line + [c])[1..] == [];
      assert (line + [c])[0] == c;
    } else {
      ResolvableSnoc(s, line[1..], line[0].id, c);
      assert (line + [c])[1..] == line[1..] + [c];
    }
  }

  lemma {:induction false} ForestResolvable(s: seq<Channel>, id: u16, d: nat)
    requires Forest(s) && Find(s, id) < |s| && Ends(s, id, d)
    ensures Resolvable(s, Lineage(s, id, d), 0)
    decreases d
  {
    hide Resolvable, Child, Distinct;
    var i := Find(s, id);
    ForestChild(s, i);
    if s[i].parent == 0 {
      EmptyResolvable(s);
      ResolvableSnoc(s, [], 0, s[i]);
      assert [] + [s[i]] == [s[i]];
    } else {
      ForestResolvable(s, s[i].parent, d - 1);
      LineageEnd(s, s[i].parent, d - 1);
      ResolvableSnoc(s, Lineage(s, s[i].parent, d - 1), 0, s[i]);
    }
  }

  lemma EmptyResolvable(s: seq<Channel>)
    ensures Resolvable(s, [], 0)
  {
  }

  /** In such a forest the lookup undoes the printing for every channel. */
  lemma PathRoundTrip(s: seq<Channel>, id: u16, d: nat)
    requires Forest(s) && Find(s, id) < |s| && Ends(s, id, d)
    ensures PathOf(s, id, d).Some? && IdOf(s, PathOf(s, id, d).value) == id
  {
    ForestResolvable(s, id, d);
    RoundTripIff(s, id, d);
  }
}
