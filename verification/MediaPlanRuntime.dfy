/** The loops of the sweep: planning and deletion. */
module MediaPlanRuntime {
  import opened Options
  import opened MediaGroups
  import opened MediaPlan

  // ---------------------------------------------------------------------------------------------
  // Planning
  // ---------------------------------------------------------------------------------------------

  lemma ArchiveStep(dirs: seq<Dir>, i: nat, archive: seq<Group>)
    requires i < |dirs| && archive + ArchiveGroups(dirs[i..]) == ArchiveGroups(dirs)
    ensures archive + ArchiveOf(dirs[i]) + ArchiveGroups(dirs[i + 1..]) == ArchiveGroups(dirs)
  {
    hide ArchiveOf;
    var rest := dirs[i..];
    assert rest[1..] == dirs[i + 1..];
    assert ArchiveGroups(rest) == ArchiveOf(rest[0]) + ArchiveGroups(rest[1..]);
    hide ArchiveGroups;
  }

  lemma OutboundStep(dirs: seq<Dir>, i: nat, outbound: seq<Entry>)
    requires i < |dirs| && outbound + OutboundEntries(dirs[i..]) == OutboundEntries(dirs)
    ensures outbound + OutboundOf(dirs[i]) + OutboundEntries(dirs[i + 1..]) == OutboundEntries(dirs)
  {
    hide OutboundOf;
    var rest := dirs[i..];
    assert rest[1..] == dirs[i + 1..];
    assert OutboundEntries(rest) == OutboundOf(rest[0]) + OutboundEntries(rest[1..]);
    hide OutboundEntries;
  }

  method ScanDirectories(dirs: seq<Dir>) returns (archive: seq<Group>, outbound: seq<Entry>)
    ensures archive == ArchiveGroups(dirs) && outbound == OutboundEntries(dirs)
  {
    archive, outbound := [], [];
    assert dirs[0..] == dirs;
    assert ArchiveGroups([]) == [] && OutboundEntries([]) == [];
    hide ArchiveGroups, OutboundEntries, IsArchive, Groups;
    for i := 0 to |dirs|
      invariant archive + ArchiveGroups(dirs[i..]) == ArchiveGroups(dirs)
      invariant outbound + OutboundEntries(dirs[i..]) == OutboundEntries(dirs)
    {
      var dir := dirs[i];
      ArchiveStep(dirs, i, archive);
      OutboundStep(dirs, i, outbound);
      ArchiveIsNotOutbound(dir.parts);
      assert archive + [] == archive && outbound + [] == outbound;
      if !IsArchive(dir.parts) && !IsOutbound(dir.parts) {
        continue;
      }
      if IsArchive(dir.parts) {
        var groups := GroupDirectoryEntries(dir.entries);
        archive := archive + groups;
      } else {
        outbound := outbound + dir.entries;
      }
    }
  }

  lemma ArchiveIsNotOutbound(parts: seq<string>)
    ensures IsArchive(parts) ==> !IsOutbound(parts)
  {
  }

  lemma AgeStep(groups: seq<Group>, i: nat, planned: seq<Group>, remaining: seq<Group>, age: int, grace: int)
    requires i < |groups|
    requires planned + AgedOf(groups[i..], age, grace) == AgedOf(groups, age, grace)
    requires remaining + YoungOf(groups[i..], age, grace) == YoungOf(groups, age, grace)
    ensures var g := groups[i];
      && (if Aged(g, age, grace) then planned + [g] else planned) + AgedOf(groups[i + 1..], age, grace) == AgedOf(groups, age, grace)
      && (if Aged(g, age, grace) then remaining else remaining + [g]) + YoungOf(groups[i + 1..], age, grace)
         == YoungOf(groups, age, grace)
  {
    hide Aged;
    var rest := groups[i..];
    assert rest[1..] == groups[i + 1..];
    var a := if Aged(groups[i], age, grace) then [groups[i]] else [];
    var y := if Aged(groups[i], age, grace) then [] else [groups[i]];
    assert AgedOf(rest, age, grace) == a + AgedOf(rest[1..], age, grace);
    assert YoungOf(rest, age, grace) == y + YoungOf(rest[1..], age, grace);
    hide AgedOf, YoungOf;
    assert planned + (a + AgedOf(rest[1..], age, grace)) == (planned + a) + AgedOf(rest[1..], age, grace);
    assert remaining + (y + YoungOf(rest[1..], age, grace)) == (remaining + y) + YoungOf(rest[1..], age, grace);
    assert planned + [] == planned && remaining + [] == remaining;
  }

  method AgePassLoop(groups: seq<Group>, age: int, grace: int) returns (planned: seq<Group>, remaining: seq<Group>)
    ensures planned == AgedOf(groups, age, grace) && remaining == YoungOf(groups, age, grace)
  {
    planned, remaining := [], [];
    assert groups[0..] == groups;
    assert AgedOf([], age, grace) == [] && YoungOf([], age, grace) == [];
    hide AgedOf, YoungOf;
    for i := 0 to |groups|
      invariant planned + AgedOf(groups[i..], age, grace) == AgedOf(groups, age, grace)
      invariant remaining + YoungOf(groups[i..], age, grace) == YoungOf(groups, age, grace)
    {
      AgeStep(groups, i, planned, remaining, age, grace);
      if groups[i].newest < age && groups[i].newest < grace {
        planned := planned + [groups[i]];
      } else {
        remaining := remaining + [groups[i]];
      }
    }
  }

  lemma {:induction false} VictimsFrom(s: seq<Group>, i: nat, max: nat, grace: int)
    requires i <= Victims(s, Bytes(s), max, grace)
    ensures Victims(s, Bytes(s), max, grace) == i + Victims(s[i..], Bytes(s[i..]), max, grace)
    decreases i
  {
    assert s[0..] == s;
    if i > 0 {
      assert Bytes(s[1..]) == Bytes(s) - GroupBytes(s[0]);
      VictimsFrom(s[1..], i - 1, max, grace);
      assert s[1..][i - 1..] == s[i..];
    }
  }

  /** How many of the groups, oldest first, go. */
  method SizePassLoop(sorted: seq<Group>, max: nat, grace: int) returns (victims: seq<Group>)
    ensures victims == sorted[..Victims(sorted, Bytes(sorted), max, grace)]
  {
    ghost var k := Victims(sorted, Bytes(sorted), max, grace);
    var remainingBytes := Bytes(sorted);
    victims := [];
    assert sorted[0..] == sorted;
    for i := 0 to |sorted|
      invariant i <= k && victims == sorted[..i] && remainingBytes == Bytes(sorted[i..])
    {
      VictimsFrom(sorted, i, max, grace);
      var rest := sorted[i..];
      assert rest[0] == sorted[i] && rest[1..] == sorted[i + 1..];
      if remainingBytes <= max {
        break;
      }
      if sorted[i].newest >= grace {
        break;
      }
      assert sorted[..i + 1] == sorted[..i] + [sorted[i]];
      victims := victims + [sorted[i]];
      remainingBytes := remainingBytes - GroupBytes(sorted[i]);
    }
  }

  lemma OrphanStep(entries: seq<Entry>, i: nat, planned: seq<Group>, cutoff: int)
    requires i < |entries| && planned + Orphans(entries[i..], cutoff) == Orphans(entries, cutoff)
    ensures var e := entries[i];
      (if e.mtime < cutoff then planned + [Group([e], e.mtime)] else planned) + Orphans(entries[i + 1..], cutoff)
      == Orphans(entries, cutoff)
  {
    var rest := entries[i..];
    assert rest[1..] == entries[i + 1..];
    var o := if entries[i].mtime < cutoff then [Group([entries[i]], entries[i].mtime)] else [];
    assert Orphans(rest, cutoff) == o + Orphans(rest[1..], cutoff);
    hide Orphans;
    assert planned + (o + Orphans(rest[1..], cutoff)) == (planned + o) + Orphans(rest[1..], cutoff);
    assert planned + [] == planned;
  }

  method OrphanLoop(entries: seq<Entry>, cutoff: int) returns (planned: seq<Group>)
    ensures planned == Orphans(entries, cutoff)
  {
    planned := [];
    assert entries[0..] == entries;
    assert Orphans([], cutoff) == [];
    hide Orphans;
    for i := 0 to |entries|
      invariant planned + Orphans(entries[i..], cutoff) == Orphans(entries, cutoff)
    {
      OrphanStep(entries, i, planned, cutoff);
      if entries[i].mtime < cutoff {
        planned := planned + [Group([entries[i]], entries[i].mtime)];
      }
    }
  }

  method PlanMediaSweep(dirs: seq<Dir>, nowMs: int, maxAge: Option<real>, maxTotal: Option<nat>)
    returns (groups: seq<Group>)
    ensures groups == PlanOf(dirs, nowMs, maxAge, maxTotal)
  {
    hide Cutoff, AgedOf, YoungOf, Orphans, Victims, ArchiveGroups, OutboundEntries, Sort, Bytes;
    var archive, outbound := ScanDirectories(dirs);
    var planned, remaining := [], archive;
    var grace := Cutoff(nowMs, MIN_AGE_SECONDS);
    if maxAge.Some? {
      planned, remaining := AgePassLoop(archive, Cutoff(nowMs, maxAge.value), grace);
    }
    if maxTotal.Some? {
      remaining := Sort(remaining);
      var victims := SizePassLoop(remaining, maxTotal.value, grace);
      planned := planned + victims;
    }
    var orphans := OrphanLoop(outbound, Cutoff(nowMs, ORPHAN_AGE_SECONDS));
    groups := Sort(planned + orphans);
    assert maxTotal.None? ==> planned + [] == planned;
  }

  // ---------------------------------------------------------------------------------------------
  // Deletion
  // ---------------------------------------------------------------------------------------------

  type Files = map<Path, int>

  predicate IsLive(g: Group, live: set<Path>) { exists e :: e in g.members && e.path in live }

  predicate AsPlanned(g: Group, files: Files) {
    forall e :: e in g.members ==> e.path in files && files[e.path] == e.mtime
  }

  function Unlinked(files: Files, entries: seq<Entry>, stuck: set<Path>): Files {
    if entries == [] then files
    else Unlinked(if entries[0].path in stuck then files else files - {entries[0].path}, entries[1..], stuck)
  }

  /** A group with a live, vanished or changed member is left alone as a whole. */
  function Swept(groups: seq<Group>, files: Files, live: set<Path>, stuck: set<Path>): Files {
    if groups == [] then files
    else
      var g := groups[0];
      Swept(groups[1..], if IsLive(g, live) || !AsPlanned(g, files) then files else Unlinked(files, g.members, stuck),
            live, stuck)
  }

  class MediaArchive {
    /** The modification time of every file that is there. */
    var files: Files

    constructor (files: Files)
      ensures this.files == files
    {
      this.files := files;
    }

    /** os.unlink: false is an OSError. */
    method Unlink(path: Path, stuck: set<Path>) returns (done: bool)
      modifies this
      ensures done == (path in old(files) && path !in stuck)
      ensures files == if path in stuck then old(files) else old(files) - {path}
    {
      done := path in files && path !in stuck;
      if done {
        files := files - {path};
      }
      assert path !in old(files) ==> old(files) - {path} == old(files);
    }

    method UnlinkGroup(g: Group, stuck: set<Path>) returns (removed: nat)
      modifies this
      ensures files == Unlinked(old(files), g.members, stuck)
      ensures |files| + removed == |old(files)|
    {
      removed := 0;
      assert g.members[0..] == g.members;
      for i := 0 to |g.members|
        invariant Unlinked(files, g.members[i..], stuck) == Unlinked(old(files), g.members, stuck)
        invariant |files| + removed == |old(files)|
      {
        ghost var before := files;
        assert g.members[i..][1..] == g.members[i + 1..];
        var done := Unlink(g.members[i].path, stuck);
        if !done {
          continue;
        }
        OneLess(before, g.members[i].path);
        removed := removed + 1;
      }
    }

    method ExecuteSweepGroups(groups: seq<Group>, live: set<Path>, stuck: set<Path>) returns (filesRemoved: nat)
      modifies this
      ensures files == Swept(groups, old(files), live, stuck)
      ensures |files| + filesRemoved == |old(files)|
    {
      hide Unlinked;
      filesRemoved := 0;
      assert groups[0..] == groups;
      for i := 0 to |groups|
        invariant Swept(groups[i..], files, live, stuck) == Swept(groups, old(files), live, stuck)
        invariant |files| + filesRemoved == |old(files)|
      {
        var group := groups[i];
        assert groups[i..][1..] == groups[i + 1..];
        if exists e :: e in group.members && e.path in live {
          continue;
        }
        if exists e :: e in group.members && e.path !in files {
          continue;
        }
        if exists e :: e in group.members && files[e.path] != e.mtime {
          continue;
        }
        var removed := UnlinkGroup(group, stuck);
        filesRemoved := filesRemoved + removed;
      }
    }

    /** The batches of a sweep, which yields to the loop after each: the first batch that finds media I/O in flight or
        the router closing, and all later ones, are left to the next sweep. */
    method ExecuteSweepPlan(groups: seq<Group>, at: nat -> World) returns (filesRemoved: nat)
      modifies this
      ensures Tally(files, filesRemoved) == SweptInBatches(groups, old(files), at, 0)
    {
      hide Swept;
      filesRemoved := 0;
      assert groups[0..] == groups;
      var start, batch := 0, 0;
      while start < |groups|
        invariant start <= |groups|
        invariant SweptInBatches(groups, old(files), at, 0)
               == Plus(SweptInBatches(groups[start..], files, at, batch), filesRemoved)
      {
        if at(batch).stops {
          break;
        }
        var end := if start + BATCH_ITEMS < |groups| then start + BATCH_ITEMS else |groups|;
        assert groups[start..][..end - start] == groups[start..end] && groups[start..][end - start..] == groups[end..];
        var removed := ExecuteSweepGroups(groups[start..end], at(batch).live, at(batch).stuck);
        filesRemoved := filesRemoved + removed;
        files := at(batch).meanwhile(files);
        start, batch := end, batch + 1;
      }
    }
  }

  const BATCH_ITEMS: nat := 200

  /** What a batch finds: whether media I/O is in flight or the router is closing, the live paths, the files that refuse to
      go, and what the rest of the router and its threads do to the files until the next batch. */
  datatype World = World(stops: bool, live: set<Path>, stuck: set<Path>, meanwhile: Files -> Files)

  datatype Tally = Tally(files: Files, removed: int)

  function Plus(t: Tally, removed: int): Tally { t.(removed := t.removed + removed) }

  /** Batch `i` and those after it. */
  function SweptInBatches(groups: seq<Group>, files: Files, at: nat -> World, i: nat): Tally
    decreases |groups|
  {
    if groups == [] || at(i).stops then Tally(files, 0)
    else
      var n := if BATCH_ITEMS < |groups| then BATCH_ITEMS else |groups|;
      var after := Swept(groups[..n], files, at(i).live, at(i).stuck);
      Plus(SweptInBatches(groups[n..], at(i).meanwhile(after), at, i + 1), |files| - |after|)
  }

  /** How many groups are looked at before a batch is put off. */
  function Reached(n: nat, busyAt: Option<nat>): (r: nat)
    ensures r <= n
  {
    if busyAt.Some? && busyAt.value * BATCH_ITEMS < n then busyAt.value * BATCH_ITEMS else n
  }

  /** Batches `i` to `i + n` go ahead on the same live paths and nothing happens in between; without `n` all do. */
  ghost predicate Steady(at: nat -> World, i: nat, n: Option<nat>, live: set<Path>, stuck: set<Path>) {
    && (n.Some? ==> at(i + n.value).stops)
    && forall j: nat :: i <= j && (n.None? || j < i + n.value) ==>
         && !at(j).stops && at(j).live == live && at(j).stuck == stuck
         && forall f :: at(j).meanwhile(f) == f
  }

  /** Left alone, sweeping in batches is sweeping the groups that are reached at once. */
  lemma {:induction false} SweptAlone(groups: seq<Group>, files: Files, at: nat -> World, i: nat, busyAt: Option<nat>,
                                      live: set<Path>, stuck: set<Path>)
    requires Steady(at, i, busyAt, live, stuck)
    ensures var after := Swept(groups[..Reached(|groups|, busyAt)], files, live, stuck);
      SweptInBatches(groups, files, at, i) == Tally(after, |files| - |after|)
    decreases |groups|
  {
    hide Swept;
    SweptNone(files, live, stuck);
    if groups == [] || busyAt == Some(0) {
      assert groups[..Reached(|groups|, busyAt)] == [];
    } else {
      var n := if BATCH_ITEMS < |groups| then BATCH_ITEMS else |groups|;
      var rest := if busyAt.Some? then Some(busyAt.value - 1) else None;
      assert !at(i).stops && at(i).live == live;
      var after := Swept(groups[..n], files, live, stuck);
      SweptAlone(groups[n..], after, at, i + 1, rest, live, stuck);
      var r := Reached(|groups|, busyAt);
      assert r == n + Reached(|groups[n..]|, rest);
      assert groups[..r] == groups[..n] + groups[n..][..r - n];
      SweptConcat(groups[..n], groups[n..][..r - n], files, live, stuck);
    }
  }

  /** The rest of the router keeps the file, or replaces it by a newer one. */
  ghost predicate KeepsOrRefreshes(w: World, p: Path) {
    forall f :: p in f ==> p in w.meanwhile(f) && f[p] <= w.meanwhile(f)[p]
  }

  /** The plan knew the file, if it did, as it was before this time. */
  predicate PlannedBefore(groups: seq<Group>, p: Path, mtime: int) {
    forall g, e :: g in groups && e in g.members && e.path == p ==> e.mtime < mtime
  }

  lemma KeptByBatch(groups: seq<Group>, files: Files, live: set<Path>, stuck: set<Path>, p: Path)
    requires p in files && (p in live || PlannedBefore(groups, p, files[p]))
    ensures var after := Swept(groups, files, live, stuck); p in after && after[p] == files[p]
  {
    SweptOnlyAsPlanned(groups, files, live, stuck, p);
    forall g | g in groups && HasPath(g, p) ensures IsLive(g, live) || !AsPlanned(g, files) {
      var e :| e in g.members && e.path == p;
    }
  }

  lemma PlannedBeforeToo(groups: seq<Group>, n: nat, p: Path, mtime: int, later: int)
    requires PlannedBefore(groups, p, mtime) && mtime <= later && n <= |groups|
    ensures PlannedBefore(groups[..n], p, mtime) && PlannedBefore(groups[n..], p, later)
  {
    assert forall g :: (g in groups[..n] || g in groups[n..]) ==> g in groups;
  }

  ghost predicate AlwaysKept(at: nat -> World, i: nat, p: Path) { forall j: nat :: i <= j ==> KeepsOrRefreshes(at(j), p) }

  ghost predicate AlwaysLive(at: nat -> World, i: nat, p: Path) { forall j: nat :: i <= j ==> p in at(j).live }

  /** What one batch and the time after it leave of a protected file, and of its protection. */
  lemma KeptByOne(groups: seq<Group>, n: nat, files: Files, at: nat -> World, i: nat, p: Path)
    requires p in files && AlwaysKept(at, i, p) && n <= |groups|
    requires AlwaysLive(at, i, p) || PlannedBefore(groups, p, files[p])
    ensures var next := at(i).meanwhile(Swept(groups[..n], files, at(i).live, at(i).stuck));
      && p in next && files[p] <= next[p] && AlwaysKept(at, i + 1, p)
      && (AlwaysLive(at, i + 1, p) || PlannedBefore(groups[n..], p, next[p]))
  {
    hide Swept, PlannedBefore, KeepsOrRefreshes;
    var after := Swept(groups[..n], files, at(i).live, at(i).stuck);
    if !AlwaysLive(at, i, p) {
      PlannedBeforeToo(groups, n, p, files[p], files[p]);
    }
    KeptByBatch(groups[..n], files, at(i).live, at(i).stuck, p);
    var next := at(i).meanwhile(after);
    assert KeepsOrRefreshes(at(i), p);
    RefreshedOrKept(at(i), after, p);
    if !AlwaysLive(at, i, p) {
      PlannedBeforeToo(groups, n, p, files[p], next[p]);
    }
  }

  lemma RefreshedOrKept(w: World, files: Files, p: Path)
    requires KeepsOrRefreshes(w, p) && p in files
    ensures p in w.meanwhile(files) && files[p] <= w.meanwhile(files)[p]
  {
  }

  /** A file that is newer than it was planned, or that is live whenever a batch looks, is there after the whole sweep,
      whatever happens between the batches short of its removal. */
  lemma {:induction false} KeptThroughBatches(groups: seq<Group>, files: Files, at: nat -> World, i: nat, p: Path)
    requires p in files && AlwaysKept(at, i, p)
    requires AlwaysLive(at, i, p) || PlannedBefore(groups, p, files[p])
    ensures var after := SweptInBatches(groups, files, at, i).files; p in after && files[p] <= after[p]
    decreases |groups|
  {
    hide PlannedBefore, Swept, AlwaysKept, AlwaysLive;
    if groups != [] && !at(i).stops {
      var n := if BATCH_ITEMS < |groups| then BATCH_ITEMS else |groups|;
      KeptByOne(groups, n, files, at, i, p);
      KeptThroughBatches(groups[n..], at(i).meanwhile(Swept(groups[..n], files, at(i).live, at(i).stuck)), at, i + 1, p);
    }
  }

  lemma SweptNone(files: Files, live: set<Path>, stuck: set<Path>)
    ensures Swept([], files, live, stuck) == files
  {
  }

  /** Sweeping in batches is sweeping at once. */
  lemma {:induction false} SweptConcat(a: seq<Group>, b: seq<Group>, files: Files, live: set<Path>, stuck: set<Path>)
    ensures Swept(a + b, files, live, stuck) == Swept(b, Swept(a, files, live, stuck), live, stuck)
    decreases |a|
  {
    hide IsLive, AsPlanned, Unlinked;
    if a == [] {
      assert a + b == b;
    } else {
      assert (a + b)[1..] == a[1..] + b && (a + b)[0] == a[0];
      var g := a[0];
      SweptConcat(a[1..], b, if IsLive(g, live) || !AsPlanned(g, files) then files else Unlinked(files, g.members, stuck), live, stuck);
    }
  }

  lemma OneLess(files: Files, p: Path)
    requires p in files
    ensures |files - {p}| + 1 == |files|
  {
    assert (files - {p}).Keys == files.Keys - {p};
    assert |files.Keys - {p}| + 1 == |files.Keys|;
  }

  lemma {:induction false} UnlinkedFacts(files: Files, entries: seq<Entry>, stuck: set<Path>, p: Path)
    ensures p in Unlinked(files, entries, stuck) <==> p in files && (p in stuck || forall e :: e in entries ==> e.path != p)
    ensures p in Unlinked(files, entries, stuck) ==> Unlinked(files, entries, stuck)[p] == files[p]
  {
    if entries != [] {
      UnlinkedFacts(if entries[0].path in stuck then files else files - {entries[0].path}, entries[1..], stuck, p);
      assert entries == [entries[0]] + entries[1..];
    }
  }

  /** Whatever was planned, a file that is live or was written since the plan survives, together with its group; a
      file that goes was in a planned group of which no member was live, missing or changed. */
  lemma {:induction false} SweptOnlyAsPlanned(groups: seq<Group>, files: Files, live: set<Path>, stuck: set<Path>, p: Path)
    ensures var after := Swept(groups, files, live, stuck);
      && (p in after ==> p in files && after[p] == files[p])
      && (p in files && p !in after ==>
            p !in stuck && exists g :: g in groups && HasPath(g, p) && !IsLive(g, live) && AsPlanned(g, files))
  {
    if groups != [] {
      var g := groups[0];
      var rest := if IsLive(g, live) || !AsPlanned(g, files) then files else Unlinked(files, g.members, stuck);
      forall q ensures (q in rest ==> q in files && rest[q] == files[q]) {
        UnlinkedFacts(files, g.members, stuck, q);
      }
      UnlinkedFacts(files, g.members, stuck, p);
      SweptOnlyAsPlanned(groups[1..], rest, live, stuck, p);
    }
  }

  /** And a planned group goes completely when nothing keeps it: no half-deleted pairs. */
  lemma {:induction false} SweptGroupsGoWhole(groups: seq<Group>, files: Files, live: set<Path>, k: nat, e: Entry)
    requires k < |groups| && e in groups[k].members && !IsLive(groups[k], live) && AsPlanned(groups[k], files)
    requires forall i, p :: 0 <= i < k && HasPath(groups[i], p) ==> !HasPath(groups[k], p)
    ensures e.path !in Swept(groups, files, live, {})
    decreases k
  {
    var g := groups[0];
    var rest := if IsLive(g, live) || !AsPlanned(g, files) then files else Unlinked(files, g.members, {});
    if k == 0 {
      UnlinkedFacts(files, g.members, {}, e.path);
      SweptOnlyAsPlanned(groups[1..], rest, live, {}, e.path);
    } else {
      forall x | x in groups[k].members ensures x.path in rest && rest[x.path] == x.mtime {
        assert HasPath(groups[k], x.path);
        assert !HasPath(groups[0], x.path);
        UnlinkedFacts(files, g.members, {}, x.path);
      }
      SweptGroupsGoWhole(groups[1..], rest, live, k - 1, e);
    }
  }
}
