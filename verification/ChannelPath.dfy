/** Channel paths: printing the way from the root to a channel, and looking a path up again. */
module ChannelPath {
  import opened Bytes
  import opened Options
  import opened Channels

  const SLASH: byte := 47
  const NAME_MAX: nat := 32      // the lookup's name buffer

  // ----- printing

  /** Going up from the channel ends after at most d steps, at the root or at a parent that is not in the list. */
  predicate Ends(s: seq<Channel>, id: u16, d: nat)
    decreases d
  {
    var i := Find(s, id);
    i == |s| || s[i].parent == 0 || (d > 0 && Ends(s, s[i].parent, d - 1))
  }

  /** The state of the print loop: the id it looks for and its place in the list. */
  datatype Walk = Seeking(want: u16, at: nat) | Over

  /** One turn of the loop; after a hit the list is searched from its start. */
  function Turn(s: seq<Channel>, w: Walk): Walk {
    if w.Over? || w.at >= |s| then Over
    else if s[w.at].id != w.want then Seeking(w.want, w.at + 1)
    else if s[w.at].parent == 0 then Over
    else Seeking(s[w.at].parent, 0)
  }

  function Turns(s: seq<Channel>, w: Walk, n: nat): Walk
    decreases n
  {
    if n == 0 then w else Turns(s, Turn(s, w), n - 1)
  }

  lemma {:induction false} EndsMore(s: seq<Channel>, id: u16, d: nat)
    requires Ends(s, id, d)
    ensures Ends(s, id, d + 1)
    decreases d
  {
    var i := Find(s, id);
    if i < |s| && s[i].parent != 0 {
      EndsMore(s, s[i].parent, d - 1);
    }
  }

  lemma {:induction false} OverEnds(s: seq<Channel>, want: u16, at: nat, n: nat)
    requires at <= |s| && Turns(s, Seeking(want, at), n).Over?
    requires forall j :: 0 <= j < at ==> s[j].id != want
    ensures Ends(s, want, n)
    decreases n
  {
    if at < |s| {
      if s[at].id != want {
        OverEnds(s, want, at + 1, n - 1);
        EndsMore(s, want, n - 1);
      } else {
        assert Find(s, want) == at;
        if s[at].parent != 0 {
          OverEnds(s, s[at].parent, 0, n - 1);
        }
      }
    }
  }

  lemma {:induction false} EndsOver(s: seq<Channel>, want: u16, at: nat, d: nat) returns (n: nat)
    requires at <= |s| && Ends(s, want, d)
    requires forall j :: 0 <= j < at ==> s[j].id != want
    ensures Turns(s, Seeking(want, at), n).Over?
    decreases d, |s| - at
  {
    n := 1;
    if at < |s| {
      if s[at].id != want {
        n := EndsOver(s, want, at + 1, d);
        n := n + 1;
      } else {
        assert Find(s, want) == at;
        if s[at].parent != 0 {
          n := EndsOver(s, s[at].parent, 0, d - 1);
          n := n + 1;
        }
      }
    }
  }

  ghost predicate LoopEnds(s: seq<Channel>, id: u16) {
    exists n: nat :: Turns(s, Seeking(id, 0), n).Over?
  }

  ghost predicate AncestryEnds(s: seq<Channel>, id: u16) {
    exists d: nat :: Ends(s, id, d)
  }

  /** The print loop ends if and only if the channel's ancestry does; on a cycle of parents it runs forever. */
  lemma LoopEndsIff(s: seq<Channel>, id: u16)
    ensures LoopEnds(s, id) <==> AncestryEnds(s, id)
  {
    if LoopEnds(s, id) {
      var n: nat :| Turns(s, Seeking(id, 0), n).Over?;
      OverEnds(s, id, 0, n);
    }
    if AncestryEnds(s, id) {
      var d: nat :| Ends(s, id, d);
      var n := EndsOver(s, id, 0, d);
    }
  }

  /** The channels from the topmost ancestor down to the channel itself. */
  function Lineage(s: seq<Channel>, id: u16, d: nat): seq<Channel>
    requires Ends(s, id, d)
    decreases d
  {
    var i := Find(s, id);
    if i == |s| then []
    else if s[i].parent == 0 then [s[i]]
    else Lineage(s, s[i].parent, d - 1) + [s[i]]
  }

  function Names(line: seq<Channel>): (r: seq<seq<byte>>)
    ensures |r| == |line|
    ensures forall i :: 0 <= i < |r| ==> r[i] == line[i].name
  {
    seq(|line|, i requires 0 <= i < |line| => line[i].name)
  }

  function Join(names: seq<seq<byte>>): seq<byte> {
    if names == [] then []
    else if |names| == 1 then names[0]
    else names[0] + [SLASH] + Join(names[1..])
  }

  function PathOf(s: seq<Channel>, id: u16, d: nat): Option<seq<byte>>
    requires Ends(s, id, d)
  {
    var line := Lineage(s, id, d);
    if line == [] then None else Some(Join(Names(line)))
  }

  lemma JoinFirst(name: seq<byte>, names: seq<seq<byte>>)
    ensures Join([name] + names) == if names == [] then name else name + [47] + Join(names)
  {
    assert ([name] + names)[1..] == names;
  }

  /** The channel found is the last one of its lineage, behind that of its parent. */
  lemma StepUp(s: seq<Channel>, c: nat, d: nat)
    requires Distinct(s) && c < |s| && Ends(s, s[c].id, d)
    ensures s[c].parent == 0 ==> Lineage(s, s[c].id, d) == [s[c]]
    ensures s[c].parent != 0 ==>
              && 0 < d && Ends(s, s[c].parent, d - 1)
              && Lineage(s, s[c].id, d) == Lineage(s, s[c].parent, d - 1) + [s[c]]
  {
    FindUnique(s, c);
  }

  lemma NoChannel(s: seq<Channel>, id: u16, d: nat)
    requires Ends(s, id, d) && forall j :: 0 <= j < |s| ==> s[j].id != id
    ensures Lineage(s, id, d) == []
  {
  }

  lemma JoinName(c: Channel, line: seq<Channel>)
    ensures Join(Names([c] + line)) == if line == [] then c.name else c.name + [47] + Join(Names(line))
  {
    JoinFirst(c.name, Names(line));
    assert Names([c] + line) == [c.name] + Names(line);
  }

  /** `v3_get_channel_path`: one pass over the list for each step up; the names are put in front one by one. The ghost
      argument bounds the number of steps. */
  method GetPath(s: seq<Channel>, id: u16, ghost depth: nat) returns (path: Option<seq<byte>>)
    requires Distinct(s) && Ends(s, id, depth)
    ensures path == PathOf(s, id, depth)
  {
    hide Join, Names, Find, Distinct, Ends, Lineage;
    path := None;
    var want := id;
    ghost var line: seq<Channel> := [];
    ghost var d := depth;
    var c := 0;
    assert Lineage(s, id, depth) + [] == Lineage(s, id, depth);
    while c < |s|
      invariant 0 <= c <= |s| && Ends(s, want, d)
      invariant Lineage(s, id, depth) == Lineage(s, want, d) + line
      invariant path == if line == [] then None else Some(Join(Names(line)))
      invariant forall j :: 0 <= j < c ==> s[j].id != want
      decreases d, |s| - c
    {
      if s[c].id == want {
        StepUp(s, c, d);
        JoinName(s[c], line);
        path := Some(if path.None? then s[c].name else s[c].name + [SLASH] + path.value);
        line := [s[c]] + line;
        if s[c].parent == 0 {
          return;
        }
        assert Lineage(s, id, depth) == Lineage(s, s[c].parent, d - 1) + line;
        want := s[c].parent;
        d := d - 1;
        c := 0;
      } else {
        c := c + 1;
      }
    }
    NoChannel(s, want, d);
    assert [] + line == line;
  }

  // ----- looking up

  function Split(path: seq<byte>): (r: seq<seq<byte>>)
    ensures r != []
  {
    if path == [] then [[]]
    else
      var rest := Split(path[1..]);
      if path[0] == SLASH then [[]] + rest else [[path[0]] + rest[0]] + rest[1..]
  }

  /** What a comparison of 32 characters sees of a name. */
  function Clip(name: seq<byte>): seq<byte> {
    if |name| <= NAME_MAX then name else name[..NAME_MAX]
  }

  predicate IsChild(c: Channel, parent: u16, name: seq<byte>) {
    c.parent == parent && Clip(c.name) == name
  }

  /** The first channel of the list with this parent and name, or |s|. */
  function Child(s: seq<Channel>, parent: u16, name: seq<byte>): (i: nat)
    ensures i <= |s|
    ensures i < |s| ==> IsChild(s[i], parent, name)
    ensures forall j :: 0 <= j < i ==> !IsChild(s[j], parent, name)
  {
    if s == [] || IsChild(s[0], parent, name) then 0 else 1 + Child(s[1..], parent, name)
  }

  function Resolve(s: seq<Channel>, parts: seq<seq<byte>>, parent: u16): u16 {
    if parts == [] then parent
    else if |parts[0]| > NAME_MAX then 0
    else
      var i := Child(s, parent, parts[0]);
      if i == |s| then 0 else Resolve(s, parts[1..], s[i].id)
  }

  function IdOf(s: seq<Channel>, path: seq<byte>): u16 {
    if path == [] || [] in Split(path) then 0 else Resolve(s, Split(path), 0)
  }

  /** `v3_get_channel_id`: the path is cut at the separators, an empty part ends the lookup, and the parts are looked up
      from the root down. */
  method GetId(s: seq<Channel>, path: seq<byte>) returns (id: u16)
    ensures id == IdOf(s, path)
  {
    if path == [] {
      return 0;
    }
    var parts := Cut(path);
    if parts.None? {
      return 0;
    }
    id := LookUp(s, parts.value);
  }

  /** The cutting loop. */
  method Cut(path: seq<byte>) returns (parts: Option<seq<seq<byte>>>)
    ensures parts == if [] in Split(path) then None else Some(Split(path))
  {
    hide Split, Glue;
    var names: seq<seq<byte>> := [];
    var len := 0;
    var p := 0;
    assert path[0..0] == [] && path[0..] == path;
    GlueNothing(Split(path));
    assert [] + Split(path) == Split(path);
    while p <= |path|
      invariant 0 <= len <= p <= |path|
      invariant [] !in names
      invariant Split(path) == names + Glue(path[p - len..p], Split(path[p..]))
      decreases |path| - p
    {
      if p == |path| || path[p] == SLASH {
        SplitHere(path, p, path[p - len..p]);
        if len == 0 {
          assert Split(path)[|names|] == [];
          return None;
        }
        var rest := if p == |path| then [] else Split(path[p + 1..]);
        assert names + ([path[p - len..p]] + rest) == names + [path[p - len..p]] + rest;
        names := names + [path[p - len..p]];
        len := 0;
        if p == |path| {
          assert names + [] == names;
          return Some(names);
        }
        GlueNothing(rest);
        assert path[p + 1..p + 1] == [];
      } else {
        GlueMore(path, p, len);
        len := len + 1;
      }
      p := p + 1;
    }
  }

  /** A part that was begun, and the parts of the rest of the path. */
  function Glue(begun: seq<byte>, parts: seq<seq<byte>>): seq<seq<byte>>
    requires parts != []
  {
    [begun + parts[0]] + parts[1..]
  }

  lemma GlueNothing(parts: seq<seq<byte>>)
    requires parts != []
    ensures Glue([], parts) == parts
  {
    assert [] + parts[0] == parts[0];
  }

  lemma SplitHere(path: seq<byte>, p: nat, begun: seq<byte>)
    requires p <= |path| && (p == |path| || path[p] == SLASH)
    ensures Glue(begun, Split(path[p..])) == [begun] + (if p == |path| then [] else Split(path[p + 1..]))
  {
    assert begun + [] == begun;
    if p < |path| {
      assert path[p..][1..] == path[p + 1..];
    }
  }

  lemma GlueMore(path: seq<byte>, p: nat, len: nat)
    requires len <= p < |path| && path[p] != SLASH
    ensures Glue(path[p - len..p], Split(path[p..])) == Glue(path[p - len..p + 1], Split(path[p + 1..]))
  {
    assert path[p..][1..] == path[p + 1..];
    var rest := Split(path[p + 1..]);
    assert path[p - len..p] + ([path[p]] + rest[0]) == path[p - len..p + 1] + rest[0];
  }

  /** The lookup loop: one pass over the list for each part. */
  method LookUp(s: seq<Channel>, parts: seq<seq<byte>>) returns (id: u16)
    ensures id == Resolve(s, parts, 0)
  {
    hide Child, Clip;
    id := 0;
    for ctr := 0 to |parts|
      invariant Resolve(s, parts[ctr..], id) == Resolve(s, parts, 0)
    {
      assert parts[ctr..][0] == parts[ctr] && parts[ctr..][1..] == parts[ctr + 1..];
      if |parts[ctr]| > NAME_MAX {
        return 0;
      }
      var c := 0;
      while c < |s| && !(s[c].parent == id && Clip(s[c].name) == parts[ctr])
        invariant 0 <= c <= |s|
        invariant forall j :: 0 <= j < c ==> !IsChild(s[j], id, parts[ctr])
      {
        c := c + 1;
      }
      ChildUnique(s, id, parts[ctr], c);
      if c == |s| {
        return 0;
      }
      id := s[c].id;
    }
    assert parts[|parts|..] == [];
  }

  lemma ChildUnique(s: seq<Channel>, parent: u16, name: seq<byte>, i: nat)
    requires i <= |s| && (i < |s| ==> IsChild(s[i], parent, name))
    requires forall j :: 0 <= j < i ==> !IsChild(s[j], parent, name)
    ensures Child(s, parent, name) == i
  {
  }

  /** The lookup compares at most 32 bytes: a longer part finds nothing, and of a longer name only its first 32 bytes
      count. */
  lemma {:induction false} LongPartFails(s: seq<Channel>, parts: seq<seq<byte>>, parent: u16, k: nat)
    requires k < |parts| && |parts[k]| > 32
    ensures Resolve(s, parts, parent) == 0
    decreases |parts|
  {
    hide Child;
    if k > 0 && |parts[0]| <= NAME_MAX {
      var i := Child(s, parent, parts[0]);
      if i < |s| {
        LongPartFails(s, parts[1..], s[i].id, k - 1);
      }
    }
  }

  lemma LongNameClipped(c: Channel, parent: u16, name: seq<byte>)
    ensures IsChild(c, parent, name)
            <==> c.parent == parent && name == (if |c.name| < 32 then c.name else c.name[..32])
  {
  }
}
