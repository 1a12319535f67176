/** Pairing the files of one archive directory with their manifest sidecars. */
module MediaGroups {
  /** A file under the media root: its directory and name, its size, and its modification time in nanoseconds. */
  datatype Path = Path(dir: seq<string>, name: string)

  datatype Entry = Entry(path: Path, size: nat, mtime: int)

  /** A principal, with its sidecar if it has one, and the newest modification time among them. */
  datatype Group = Group(members: seq<Entry>, newest: int)

  const SUFFIX: string := ".manifest.json"

  predicate EndsWith(name: string, suffix: string) {
    |name| >= |suffix| && name[|name| - |suffix|..] == suffix
  }

  function Stem(name: string): string
    requires EndsWith(name, SUFFIX)
  {
    name[..|name| - |SUFFIX|]
  }

  function NamesOf(entries: seq<Entry>): set<string> { set e | e in entries :: e.path.name }

  /** The entries of one directory, each name once. */
  ghost predicate OneDirectory(entries: seq<Entry>) {
    && (forall i, j :: 0 <= i < j < |entries| ==> entries[i].path.name != entries[j].path.name)
    && (forall i, j :: 0 <= i < |entries| && 0 <= j < |entries| ==> entries[i].path.dir == entries[j].path.dir)
  }

  /** `name` belongs to the file before its suffix, unless it has a sidecar of its own. */
  predicate IsSidecar(names: set<string>, name: string) {
    name in names && EndsWith(name, SUFFIX) && Stem(name) in names && name + SUFFIX !in names
  }

  function Index(entries: seq<Entry>, name: string): (i: nat)
    requires name in NamesOf(entries)
    ensures i < |entries| && entries[i].path.name == name
  {
    if entries[0].path.name == name then 0 else 1 + Index(entries[1..], name)
  }

  function Max(a: int, b: int): int { if a >= b then a else b }

  function GroupOf(entries: seq<Entry>, e: Entry): Group {
    var names := NamesOf(entries);
    if IsSidecar(names, e.path.name + SUFFIX) then
      var s := entries[Index(entries, e.path.name + SUFFIX)];
      Group([e, s], Max(e.mtime, s.mtime))
    else Group([e], e.mtime)
  }

  /** A sidecar goes with its principal. */
  function OwnGroup(entries: seq<Entry>, e: Entry): seq<Group> {
    if IsSidecar(NamesOf(entries), e.path.name) then [] else [GroupOf(entries, e)]
  }

  function GroupsFrom(entries: seq<Entry>, rest: seq<Entry>): seq<Group> {
    if rest == [] then [] else OwnGroup(entries, rest[0]) + GroupsFrom(entries, rest[1..])
  }

  function Groups(entries: seq<Entry>): seq<Group> { GroupsFrom(entries, entries) }

  // ---------------------------------------------------------------------------------------------
  // The loops
  // ---------------------------------------------------------------------------------------------

  /** `sidecars` maps the sidecars among the first `n` entries to their principals. */
  ghost predicate SidecarMap(entries: seq<Entry>, n: nat, sidecars: map<string, string>)
    requires n <= |entries|
  {
    forall s :: (s in sidecars <==> IsSidecar(NamesOf(entries), s) && s in NamesOf(entries[..n]))
                && (s in sidecars ==> EndsWith(s, SUFFIX) && sidecars[s] == Stem(s))
  }

  method FindSidecars(entries: seq<Entry>) returns (sidecars: map<string, string>)
    ensures SidecarMap(entries, |entries|, sidecars)
  {
    var names := NamesOf(entries);
    sidecars := map[];
    for i := 0 to |entries|
      invariant SidecarMap(entries, i, sidecars)
    {
      var name := entries[i].path.name;
      assert entries[..i + 1] == entries[..i] + [entries[i]];
      assert NamesOf(entries[..i + 1]) == NamesOf(entries[..i]) + {name};
      assert name in names;
      hide NamesOf;
      if !EndsWith(name, SUFFIX) {
        continue;
      }
      var principal := Stem(name);
      if principal in names && name + SUFFIX !in names {
        sidecars := sidecars[name := principal];
      }
    }
  }

  lemma SidecarKnown(entries: seq<Entry>, sidecars: map<string, string>, name: string)
    requires SidecarMap(entries, |entries|, sidecars)
    ensures name in sidecars <==> IsSidecar(NamesOf(entries), name)
    ensures name + SUFFIX in sidecars ==> sidecars[name + SUFFIX] == name
  {
    assert entries[..|entries|] == entries;
  }

  lemma NextGroup(entries: seq<Entry>, i: nat, groups: seq<Group>)
    requires i < |entries| && groups + GroupsFrom(entries, entries[i..]) == Groups(entries)
    ensures groups + OwnGroup(entries, entries[i]) + GroupsFrom(entries, entries[i + 1..]) == Groups(entries)
  {
    hide OwnGroup, Groups;
    var rest := entries[i..];
    assert rest[1..] == entries[i + 1..];
    assert GroupsFrom(entries, rest) == OwnGroup(entries, rest[0]) + GroupsFrom(entries, rest[1..]);
    hide GroupsFrom;
  }

  /** An entry that is no sidecar, with its sidecar. */
  method MembersOf(entries: seq<Entry>, sidecars: map<string, string>, entry: Entry) returns (g: Group)
    requires SidecarMap(entries, |entries|, sidecars)
    ensures g == GroupOf(entries, entry)
  {
    var name := entry.path.name;
    SidecarKnown(entries, sidecars, name);
    SidecarKnown(entries, sidecars, name + SUFFIX);
    hide SidecarMap, Index, NamesOf;
    var members, newest := [entry], entry.mtime;
    var sidecarName := name + SUFFIX;
    if sidecarName in sidecars && sidecars[sidecarName] == name {
      var sidecar := entries[Index(entries, sidecarName)];
      members, newest := members + [sidecar], Max(newest, sidecar.mtime);
    }
    g := Group(members, newest);
  }

  method GroupDirectoryEntries(entries: seq<Entry>) returns (groups: seq<Group>)
    ensures groups == Groups(entries)
  {
    var sidecars := FindSidecars(entries);
    groups := [];
    assert entries[0..] == entries;
    hide SidecarMap, IsSidecar, NamesOf, GroupsFrom, GroupOf;
    for i := 0 to |entries|
      invariant groups + GroupsFrom(entries, entries[i..]) == Groups(entries)
    {
      var entry := entries[i];
      NextGroup(entries, i, groups);
      SidecarKnown(entries, sidecars, entry.path.name);
      if entry.path.name in sidecars {
        assert groups + OwnGroup(entries, entry) == groups;
        continue;
      }
      var group := MembersOf(entries, sidecars, entry);
      groups := groups + [group];
    }
  }

  // ---------------------------------------------------------------------------------------------
  // What the pairing is for
  // ---------------------------------------------------------------------------------------------

  lemma SuffixedStem(name: string)
    requires EndsWith(name, SUFFIX)
    ensures Stem(name) + SUFFIX == name
  {
  }

  /** A file with a sidecar is never a sidecar itself, so chains break into pairs. */
  lemma PrincipalsAreNoSidecars(names: set<string>, name: string)
    requires IsSidecar(names, name + SUFFIX)
    ensures name in names && !IsSidecar(names, name)
  {
  }

  /** The `i`-th group is that of the `k`-th entry. */
  ghost predicate GroupIsOf(entries: seq<Entry>, rest: seq<Entry>, i: nat, k: nat) {
    && i < |GroupsFrom(entries, rest)| && k < |rest|
    && !IsSidecar(NamesOf(entries), rest[k].path.name) && GroupsFrom(entries, rest)[i] == GroupOf(entries, rest[k])
  }

  lemma TailGroup(entries: seq<Entry>, rest: seq<Entry>, i: nat, k: nat)
    requires rest != [] && GroupIsOf(entries, rest[1..], i, k)
    ensures GroupIsOf(entries, rest, if IsSidecar(NamesOf(entries), rest[0].path.name) then i else i + 1, k + 1)
  {
    hide IsSidecar, GroupOf, NamesOf;
    assert rest[k + 1] == rest[1..][k];
  }

  lemma HeadGroup(entries: seq<Entry>, rest: seq<Entry>)
    requires rest != [] && !IsSidecar(NamesOf(entries), rest[0].path.name)
    ensures GroupIsOf(entries, rest, 0, 0)
  {
    hide IsSidecar, GroupOf, NamesOf;
  }

  lemma {:induction false} GroupsComeFrom(entries: seq<Entry>, rest: seq<Entry>, i: nat) returns (k: nat)
    requires i < |GroupsFrom(entries, rest)|
    ensures GroupIsOf(entries, rest, i, k)
    decreases |rest|
  {
    hide IsSidecar, GroupOf, NamesOf, GroupIsOf;
    var skipped := IsSidecar(NamesOf(entries), rest[0].path.name);
    if !skipped && i == 0 {
      HeadGroup(entries, rest);
      k := 0;
    } else {
      var k' := GroupsComeFrom(entries, rest[1..], if skipped then i else i - 1);
      TailGroup(entries, rest, if skipped then i else i - 1, k');
      k := k' + 1;
    }
  }

  lemma {:induction false} GroupsHaveAll(entries: seq<Entry>, rest: seq<Entry>, k: nat)
    requires k < |rest| && !IsSidecar(NamesOf(entries), rest[k].path.name)
    ensures GroupOf(entries, rest[k]) in GroupsFrom(entries, rest)
    decreases |rest|
  {
    hide IsSidecar, GroupOf, NamesOf;
    if k > 0 {
      GroupsHaveAll(entries, rest[1..], k - 1);
    }
  }

  /** Groups follow the order of their principals. */
  lemma {:induction false} GroupsInOrder(entries: seq<Entry>, rest: seq<Entry>, i: nat, j: nat) returns (k: nat, l: nat)
    requires i < j < |GroupsFrom(entries, rest)|
    ensures k < l && GroupIsOf(entries, rest, i, k) && GroupIsOf(entries, rest, j, l)
    decreases |rest|
  {
    hide IsSidecar, GroupOf, NamesOf, GroupIsOf;
    var tail := rest[1..];
    var d := if IsSidecar(NamesOf(entries), rest[0].path.name) then 0 else 1;
    if d == 1 && i == 0 {
      HeadGroup(entries, rest);
      var l' := GroupsComeFrom(entries, tail, j - 1);
      TailGroup(entries, rest, j - 1, l');
      k, l := 0, l' + 1;
    } else {
      var k', l' := GroupsInOrder(entries, tail, i - d, j - d);
      TailGroup(entries, rest, i - d, k');
      TailGroup(entries, rest, j - d, l');
      k, l := k' + 1, l' + 1;
    }
  }

  predicate HasName(g: Group, name: string) { exists e :: e in g.members && e.path.name == name }

  /** One principal, at most one sidecar that is named after it and has no sidecar itself, and the newest time. */
  ghost predicate WellPaired(entries: seq<Entry>, g: Group) {
    && 1 <= |g.members| <= 2
    && (forall e :: e in g.members ==> e in entries)
    && !IsSidecar(NamesOf(entries), g.members[0].path.name)
    && (|g.members| == 2 <==> IsSidecar(NamesOf(entries), g.members[0].path.name + SUFFIX))
    && (|g.members| == 2 ==> g.members[1].path.name == g.members[0].path.name + SUFFIX)
    && (forall e :: e in g.members ==> e.mtime <= g.newest) && (exists e :: e in g.members && e.mtime == g.newest)
  }

  lemma GroupOfIsWellPaired(entries: seq<Entry>, e: Entry)
    requires e in entries && !IsSidecar(NamesOf(entries), e.path.name)
    ensures WellPaired(entries, GroupOf(entries, e))
  {
    var g := GroupOf(entries, e);
    assert g.members[0] == e;
    if |g.members| == 2 {
      assert g.members[1] in g.members && g.members[1] in entries;
    }
    hide IsSidecar, NamesOf, Index;
    assert exists m :: m in g.members && m.mtime == g.newest by {
      assert g.members[if e.mtime == g.newest then 0 else 1].mtime == g.newest;
    }
  }

  /** For any set of file names, chains of suffixes included, every group is one principal with at most one sidecar,
      and its age is that of its newest member. */
  lemma EveryGroupIsWellPaired(entries: seq<Entry>, i: nat)
    requires i < |Groups(entries)|
    ensures WellPaired(entries, Groups(entries)[i])
  {
    hide IsSidecar, GroupOf, NamesOf, WellPaired;
    var k := GroupsComeFrom(entries, entries, i);
    GroupOfIsWellPaired(entries, entries[k]);
  }

  /** No file is left out. */
  lemma GroupsCover(entries: seq<Entry>, k: nat)
    requires OneDirectory(entries) && k < |entries|
    ensures exists g :: g in Groups(entries) && entries[k] in g.members
  {
    var names, e := NamesOf(entries), entries[k];
    if !IsSidecar(names, e.path.name) {
      GroupsHaveAll(entries, entries, k);
      assert GroupOf(entries, e).members[0] == e;
    } else {
      SuffixedStem(e.path.name);
      var p := Index(entries, Stem(e.path.name));
      PrincipalsAreNoSidecars(names, entries[p].path.name);
      GroupsHaveAll(entries, entries, p);
      assert Index(entries, e.path.name) == k;
      assert GroupOf(entries, entries[p]).members[1] == e;
    }
  }

  lemma TwoGroupsApart(entries: seq<Entry>, a: Entry, b: Entry, name: string)
    requires a in entries && b in entries && a.path.name != b.path.name
    requires !IsSidecar(NamesOf(entries), a.path.name) && !IsSidecar(NamesOf(entries), b.path.name)
    ensures !(HasName(GroupOf(entries, a), name) && HasName(GroupOf(entries, b), name))
  {
    var names := NamesOf(entries);
    assert HasName(GroupOf(entries, a), name) ==> name == a.path.name || (IsSidecar(names, name) && name == a.path.name + SUFFIX);
    assert HasName(GroupOf(entries, b), name) ==> name == b.path.name || (IsSidecar(names, name) && name == b.path.name + SUFFIX);
  }

  /** No file is in two groups, so none is planned twice. */
  lemma GroupsAreDisjoint(entries: seq<Entry>, i: nat, j: nat, name: string)
    requires OneDirectory(entries) && i < j < |Groups(entries)|
    ensures !(HasName(Groups(entries)[i], name) && HasName(Groups(entries)[j], name))
  {
    hide IsSidecar, GroupOf, NamesOf, HasName;
    var k, l := GroupsInOrder(entries, entries, i, j);
    TwoGroupsApart(entries, entries[k], entries[l], name);
  }
}
