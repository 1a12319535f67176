/** Which groups of files a retention sweep plans to delete. */
module MediaPlan {
  import opened Options
  import opened MediaGroups

  const MIN_AGE_SECONDS: real := 3600.0
  const ORPHAN_AGE_SECONDS: real := 86400.0
  const OUTBOUND: string := ".outbound"

  /** One directory below the media root: the parts of its relative path, and its files. */
  datatype Dir = Dir(parts: seq<string>, entries: seq<Entry>)

  predicate IsDigits(s: string, n: nat) { |s| == n && forall i :: 0 <= i < |s| ==> '0' <= s[i] <= '9' }

  predicate IsArchive(parts: seq<string>) {
    |parts| >= 3 && parts[0] != OUTBOUND && IsDigits(parts[1], 4) && IsDigits(parts[2], 2)
  }

  predicate IsOutbound(parts: seq<string>) { |parts| >= 1 && parts[0] == OUTBOUND }

  /** Python's int(): towards zero. */
  function Truncate(x: real): int { if x >= 0.0 then x.Floor else -((-x).Floor) }

  /** The cutoff in nanoseconds for an age in seconds at a clock reading in milliseconds. */
  function Cutoff(nowMs: int, ageSeconds: real): int {
    Truncate((nowMs as real - ageSeconds * 1000.0) * 1000000.0)
  }

  /** Below the cutoff is really older than the age. */
  lemma BelowCutoffIsOlder(nowMs: int, ageSeconds: real, mtime: int)
    requires mtime < Cutoff(nowMs, ageSeconds)
    ensures mtime as real < (nowMs as real - ageSeconds * 1000.0) * 1000000.0
  {
    var x := (nowMs as real - ageSeconds * 1000.0) * 1000000.0;
    if x < 0.0 {
      assert (-x).Floor as real > -x - 1.0;
      assert mtime as real <= (Truncate(x) - 1) as real;
    } else {
      assert x.Floor as real <= x;
    }
  }

  /** The cutoff is exact: a time is below it if it is older than the age, by a nanosecond at least when the age does not
      reach back beyond the epoch. */
  lemma CutoffIsExact(nowMs: int, ageSeconds: real, mtime: int)
    ensures var x := (nowMs as real - ageSeconds * 1000.0) * 1000000.0;
      mtime < Cutoff(nowMs, ageSeconds) <==> if x >= 0.0 then mtime as real + 1.0 <= x else mtime as real < x
  {
    var x := (nowMs as real - ageSeconds * 1000.0) * 1000000.0;
    if x >= 0.0 {
      assert x.Floor as real <= x < x.Floor as real + 1.0;
    } else {
      assert (-x).Floor as real <= -x < (-x).Floor as real + 1.0;
    }
  }

  predicate IsDigit(c: char) { '0' <= c <= '9' }

  /** The archive is what lies at or below <platform>/<year>/<month>, with a year of four digits and a month of two, for any
      platform but the staging directory. */
  lemma ArchiveLayout(parts: seq<string>)
    ensures IsArchive(parts) <==>
      exists platform: string, a: char, b: char, c: char, d: char, m: char, n: char ::
        && IsDigit(a) && IsDigit(b) && IsDigit(c) && IsDigit(d) && IsDigit(m) && IsDigit(n) && platform != ".outbound"
        && |parts| >= 3 && parts[..3] == [platform, [a, b, c, d], [m, n]]
    ensures !(IsArchive(parts) && IsOutbound(parts)) && (IsOutbound(parts) <==> parts != [] && parts[0] == ".outbound")
  {
    if IsArchive(parts) {
      var y, m := parts[1], parts[2];
      assert y == [y[0], y[1], y[2], y[3]] && m == [m[0], m[1]];
      assert parts[..3] == [parts[0], [y[0], y[1], y[2], y[3]], [m[0], m[1]]];
      assert IsDigit(y[0]) && IsDigit(y[1]) && IsDigit(y[2]) && IsDigit(y[3]) && IsDigit(m[0]) && IsDigit(m[1]);
    }
    if |parts| >= 3 {
      assert parts[..3][0] == parts[0] && parts[..3][1] == parts[1] && parts[..3][2] == parts[2];
    }
  }

  // ---------------------------------------------------------------------------------------------
  // Sums over groups
  // ---------------------------------------------------------------------------------------------

  function Sum(groups: seq<Group>, f: Group -> nat): nat {
    if groups == [] then 0 else f(groups[0]) + Sum(groups[1..], f)
  }

  lemma {:induction false} SumConcat(a: seq<Group>, b: seq<Group>, f: Group -> nat)
    ensures Sum(a + b, f) == Sum(a, f) + Sum(b, f)
  {
    if a == [] {
      assert a + b == b;
    } else {
      SumConcat(a[1..], b, f);
      assert (a + b)[1..] == a[1..] + b;
    }
  }

  function EntryBytes(entries: seq<Entry>): nat {
    if entries == [] then 0 else entries[0].size + EntryBytes(entries[1..])
  }

  function GroupBytes(g: Group): nat { EntryBytes(g.members) }

  function Bytes(groups: seq<Group>): nat { Sum(groups, GroupBytes) }

  // ---------------------------------------------------------------------------------------------
  // A stable sort by newest member, oldest first
  // ---------------------------------------------------------------------------------------------

  function Insert(g: Group, s: seq<Group>): seq<Group> {
    if s == [] || g.newest <= s[0].newest then [g] + s else [s[0]] + Insert(g, s[1..])
  }

  function Sort(s: seq<Group>): seq<Group> {
    if s == [] then [] else Insert(s[0], Sort(s[1..]))
  }

  ghost predicate OldestFirst(s: seq<Group>) {
    forall i, j :: 0 <= i < j < |s| ==> s[i].newest <= s[j].newest
  }

  lemma {:induction false} InsertPermutes(g: Group, s: seq<Group>)
    ensures multiset(Insert(g, s)) == multiset{g} + multiset(s)
  {
    if s != [] && g.newest > s[0].newest {
      InsertPermutes(g, s[1..]);
      assert s == [s[0]] + s[1..];
    }
  }

  lemma {:induction false} InsertSorts(g: Group, s: seq<Group>)
    requires OldestFirst(s)
    ensures OldestFirst(Insert(g, s))
  {
    if s != [] && g.newest > s[0].newest {
      InsertSorts(g, s[1..]);
      var t := Insert(g, s[1..]);
      forall i | 0 <= i < |t| ensures s[0].newest <= t[i].newest {
        InsertPermutes(g, s[1..]);
        assert t[i] in multiset(t);
        assert t[i] == g || t[i] in s[1..];
      }
      hide Insert;
      assert OldestFirst([s[0]] + t);
    }
  }

  lemma {:induction false} SortSorts(s: seq<Group>)
    ensures OldestFirst(Sort(s)) && multiset(Sort(s)) == multiset(s)
  {
    if s != [] {
      SortSorts(s[1..]);
      InsertSorts(s[0], Sort(s[1..]));
      InsertPermutes(s[0], Sort(s[1..]));
      assert s == [s[0]] + s[1..];
    }
  }

  lemma {:induction false} InsertSums(g: Group, s: seq<Group>, f: Group -> nat)
    ensures Sum(Insert(g, s), f) == f(g) + Sum(s, f)
  {
    if s != [] && g.newest > s[0].newest {
      InsertSums(g, s[1..], f);
    }
  }

  lemma {:induction false} SortSums(s: seq<Group>, f: Group -> nat)
    ensures Sum(Sort(s), f) == Sum(s, f)
  {
    if s != [] {
      SortSums(s[1..], f);
      InsertSums(s[0], Sort(s[1..]), f);
    }
  }

  // ---------------------------------------------------------------------------------------------
  // The passes
  // ---------------------------------------------------------------------------------------------

  function ArchiveOf(d: Dir): seq<Group> { if IsArchive(d.parts) then Groups(d.entries) else [] }

  function OutboundOf(d: Dir): seq<Entry> { if IsOutbound(d.parts) then d.entries else [] }

  function ArchiveGroups(dirs: seq<Dir>): seq<Group> {
    if dirs == [] then [] else ArchiveOf(dirs[0]) + ArchiveGroups(dirs[1..])
  }

  function OutboundEntries(dirs: seq<Dir>): seq<Entry> {
    if dirs == [] then [] else OutboundOf(dirs[0]) + OutboundEntries(dirs[1..])
  }

  predicate Aged(g: Group, age: int, grace: int) { g.newest < age && g.newest < grace }

  function AgedOf(groups: seq<Group>, age: int, grace: int): seq<Group> {
    if groups == [] then []
    else (if Aged(groups[0], age, grace) then [groups[0]] else []) + AgedOf(groups[1..], age, grace)
  }

  function YoungOf(groups: seq<Group>, age: int, grace: int): seq<Group> {
    if groups == [] then []
    else (if Aged(groups[0], age, grace) then [] else [groups[0]]) + YoungOf(groups[1..], age, grace)
  }

  /** How many groups from the front the size pass takes. */
  function Victims(s: seq<Group>, bytes: int, max: nat, grace: int): (k: nat)
    ensures k <= |s|
  {
    if s == [] || bytes <= max || s[0].newest >= grace then 0
    else 1 + Victims(s[1..], bytes - GroupBytes(s[0]), max, grace)
  }

  function Orphans(entries: seq<Entry>, cutoff: int): seq<Group> {
    if entries == [] then []
    else (if entries[0].mtime < cutoff then [Group([entries[0]], entries[0].mtime)] else []) + Orphans(entries[1..], cutoff)
  }

  function AgeSplit(archive: seq<Group>, nowMs: int, maxAge: Option<real>): (seq<Group>, seq<Group>) {
    match maxAge
    case None => ([], archive)
    case Some(age) =>
      var cutoff, grace := Cutoff(nowMs, age), Cutoff(nowMs, MIN_AGE_SECONDS);
      (AgedOf(archive, cutoff, grace), YoungOf(archive, cutoff, grace))
  }

  function SizeSplit(young: seq<Group>, maxTotal: Option<nat>, grace: int): (seq<Group>, seq<Group>) {
    match maxTotal
    case None => ([], young)
    case Some(max) =>
      var sorted := Sort(young);
      var k := Victims(sorted, Bytes(sorted), max, grace);
      (sorted[..k], sorted[k..])
  }

  /** What the passes take and what they leave. */
  datatype Parts = Parts(aged: seq<Group>, victims: seq<Group>, kept: seq<Group>, orphans: seq<Group>)

  function PartsOf(dirs: seq<Dir>, nowMs: int, maxAge: Option<real>, maxTotal: Option<nat>): Parts {
    var (aged, young) := AgeSplit(ArchiveGroups(dirs), nowMs, maxAge);
    var (victims, kept) := SizeSplit(young, maxTotal, Cutoff(nowMs, MIN_AGE_SECONDS));
    Parts(aged, victims, kept, Orphans(OutboundEntries(dirs), Cutoff(nowMs, ORPHAN_AGE_SECONDS)))
  }

  function PlanOf(dirs: seq<Dir>, nowMs: int, maxAge: Option<real>, maxTotal: Option<nat>): seq<Group> {
    var p := PartsOf(dirs, nowMs, maxAge, maxTotal);
    Sort(p.aged + p.victims + p.orphans)
  }

  // ---------------------------------------------------------------------------------------------
  // The size pass
  // ---------------------------------------------------------------------------------------------

  /** Victims are inside the grace floor's reach, one fewer would leave too much, and the pass stops only at enough
      or at the grace floor. */
  lemma {:induction false} VictimsAreMinimal(s: seq<Group>, max: nat, grace: int)
    ensures var k := Victims(s, Bytes(s), max, grace);
      && (forall i :: 0 <= i < k ==> s[i].newest < grace)
      && (k > 0 ==> Bytes(s[k - 1..]) > max)
      && (Bytes(s[k..]) <= max || (k < |s| && s[k].newest >= grace))
  {
    var k := Victims(s, Bytes(s), max, grace);
    if k == 0 {
      assert s[0..] == s;
    } else {
      assert Bytes(s[1..]) == Bytes(s) - GroupBytes(s[0]);
      VictimsAreMinimal(s[1..], max, grace);
      assert s[1..][k - 1..] == s[k..];
      if k == 1 {
        assert s[0..] == s;
      } else {
        assert s[1..][k - 2..] == s[k - 1..];
      }
    }
  }

  // ---------------------------------------------------------------------------------------------
  // The whole plan
  // ---------------------------------------------------------------------------------------------

  lemma {:induction false} AgedPermutes(groups: seq<Group>, age: int, grace: int)
    ensures multiset(AgedOf(groups, age, grace)) + multiset(YoungOf(groups, age, grace)) == multiset(groups)
  {
    if groups != [] {
      AgedPermutes(groups[1..], age, grace);
      assert groups == [groups[0]] + groups[1..];
    }
  }

  lemma {:induction false} AgedExactly(groups: seq<Group>, age: int, grace: int, g: Group)
    ensures g in AgedOf(groups, age, grace) <==> g in groups && Aged(g, age, grace)
  {
    if groups != [] {
      AgedExactly(groups[1..], age, grace, g);
    }
  }

  lemma {:induction false} AgedSums(groups: seq<Group>, age: int, grace: int, f: Group -> nat)
    ensures Sum(AgedOf(groups, age, grace), f) + Sum(YoungOf(groups, age, grace), f) == Sum(groups, f)
  {
    hide Aged;
    if groups != [] {
      AgedSums(groups[1..], age, grace, f);
      var aged, young := AgedOf(groups[1..], age, grace), YoungOf(groups[1..], age, grace);
      assert groups == [groups[0]] + groups[1..];
      hide Sum;
      if Aged(groups[0], age, grace) {
        assert YoungOf(groups, age, grace) == [] + young == young;
      } else {
        assert AgedOf(groups, age, grace) == [] + aged == aged;
      }
    }
  }

  lemma AgePass(archive: seq<Group>, nowMs: int, maxAge: Option<real>)
    ensures var (aged, young) := AgeSplit(archive, nowMs, maxAge);
      && multiset(aged) + multiset(young) == multiset(archive)
      && forall g :: g in aged <==>
           g in archive && maxAge.Some? && Aged(g, Cutoff(nowMs, maxAge.value), Cutoff(nowMs, MIN_AGE_SECONDS))
  {
    hide Aged, Cutoff;
    if maxAge.Some? {
      var cutoff, grace := Cutoff(nowMs, maxAge.value), Cutoff(nowMs, MIN_AGE_SECONDS);
      AgedPermutes(archive, cutoff, grace);
      forall g ensures g in AgedOf(archive, cutoff, grace) <==> g in archive && Aged(g, cutoff, grace) {
        AgedExactly(archive, cutoff, grace, g);
      }
    }
  }

  /** Victims are an oldest-first prefix; what is kept is within the limit or wholly inside the grace floor; with one
      victim fewer it would be above the limit. */
  ghost predicate SizePassOf(max: nat, grace: int, victims: seq<Group>, kept: seq<Group>) {
    && OldestFirst(victims + kept)
    && (forall g :: g in victims ==> g.newest < grace)
    && (Bytes(kept) <= max || forall g :: g in kept ==> g.newest >= grace)
    && (victims != [] ==> Bytes([victims[|victims| - 1]] + kept) > max)
  }

  lemma KeptAreYoung(s: seq<Group>, k: nat, grace: int)
    requires OldestFirst(s) && k < |s| && s[k].newest >= grace
    ensures forall g :: g in s[k..] ==> g.newest >= grace
  {
    forall g | g in s[k..] ensures g.newest >= grace {
      var i :| k <= i < |s| && s[i] == g;
    }
  }

  lemma VictimsAreOld(s: seq<Group>, k: nat, grace: int)
    requires k <= |s| && forall i :: 0 <= i < k ==> s[i].newest < grace
    ensures forall g :: g in s[..k] ==> g.newest < grace
  {
  }

  lemma SizePassAt(s: seq<Group>, k: nat, max: nat, grace: int)
    requires k <= |s| && OldestFirst(s)
    requires forall i :: 0 <= i < k ==> s[i].newest < grace
    requires k > 0 ==> Bytes(s[k - 1..]) > max
    requires Bytes(s[k..]) <= max || (k < |s| && s[k].newest >= grace)
    ensures SizePassOf(max, grace, s[..k], s[k..]) && s[..k] + s[k..] == s
  {
    VictimsAreOld(s, k, grace);
    if k < |s| && s[k].newest >= grace {
      KeptAreYoung(s, k, grace);
    }
    hide Bytes, OldestFirst;
    assert s[..k] + s[k..] == s;
    if k > 0 {
      assert [s[..k][k - 1]] + s[k..] == s[k - 1..];
    }
  }

  lemma SizePass(young: seq<Group>, max: nat, grace: int)
    ensures var (victims, kept) := SizeSplit(young, Some(max), grace);
      SizePassOf(max, grace, victims, kept) && victims + kept == Sort(young)
  {
    var s := Sort(young);
    SortSorts(young);
    VictimsAreMinimal(s, max, grace);
    SizePassAt(s, Victims(s, Bytes(s), max, grace), max, grace);
    hide Sort, Victims, Bytes, OldestFirst, SizePassOf;
  }

  lemma SizePermutes(young: seq<Group>, maxTotal: Option<nat>, grace: int)
    ensures var (victims, kept) := SizeSplit(young, maxTotal, grace);
      multiset(victims) + multiset(kept) == multiset(young)
  {
    if maxTotal.Some? {
      SizePass(young, maxTotal.value, grace);
      SortSorts(young);
      var (victims, kept) := SizeSplit(young, maxTotal, grace);
      hide SizeSplit, SizePassOf, Sort;
      assert multiset(victims + kept) == multiset(victims) + multiset(kept);
    }
  }

  lemma {:induction false} OrphansAreOld(entries: seq<Entry>, cutoff: int, g: Group)
    ensures g in Orphans(entries, cutoff) <==>
            exists e :: e in entries && e.mtime < cutoff && g == Group([e], e.mtime)
  {
    if entries != [] {
      OrphansAreOld(entries[1..], cutoff, g);
    }
  }

  function AllGone(p: Parts): seq<Group> { p.aged + p.victims + p.orphans }

  /** Every archive group is taken by exactly one pass or kept, and nothing else but orphans is planned. */
  lemma PassesConserve(dirs: seq<Dir>, nowMs: int, maxAge: Option<real>, maxTotal: Option<nat>)
    ensures var p := PartsOf(dirs, nowMs, maxAge, maxTotal);
      && multiset(p.aged) + multiset(p.victims) + multiset(p.kept) == multiset(ArchiveGroups(dirs))
      && multiset(PlanOf(dirs, nowMs, maxAge, maxTotal)) == multiset(p.aged) + multiset(p.victims) + multiset(p.orphans)
      && OldestFirst(PlanOf(dirs, nowMs, maxAge, maxTotal))
  {
    var p := PartsOf(dirs, nowMs, maxAge, maxTotal);
    AgePass(ArchiveGroups(dirs), nowMs, maxAge);
    SizePermutes(AgeSplit(ArchiveGroups(dirs), nowMs, maxAge).1, maxTotal, Cutoff(nowMs, MIN_AGE_SECONDS));
    SortSorts(AllGone(p));
    hide AgeSplit, SizeSplit, Sort, Cutoff, ArchiveGroups, Orphans;
  }

  lemma PlannedFrom(dirs: seq<Dir>, nowMs: int, maxAge: Option<real>, maxTotal: Option<nat>, g: Group)
    ensures var p := PartsOf(dirs, nowMs, maxAge, maxTotal);
      && (g in PlanOf(dirs, nowMs, maxAge, maxTotal) <==> g in p.aged || g in p.victims || g in p.orphans)
      && (g in p.victims ==> g in ArchiveGroups(dirs))
  {
    PassesConserve(dirs, nowMs, maxAge, maxTotal);
    var p := PartsOf(dirs, nowMs, maxAge, maxTotal);
    hide PartsOf, PlanOf, ArchiveGroups;
    assert g in multiset(PlanOf(dirs, nowMs, maxAge, maxTotal)) <==> g in multiset(p.aged) + multiset(p.victims) + multiset(p.orphans);
    assert g in multiset(p.victims) ==> g in multiset(p.aged) + multiset(p.victims) + multiset(p.kept);
  }

  /** Nothing younger than the grace floor is planned, whatever the limits: an archive group only when its newest
      member is older than the floor, an outbound file only when it is older than a day. */
  lemma PlanRespectsGrace(dirs: seq<Dir>, nowMs: int, maxAge: Option<real>, maxTotal: Option<nat>, g: Group)
    requires g in PlanOf(dirs, nowMs, maxAge, maxTotal)
    ensures (g in ArchiveGroups(dirs) && g.newest < Cutoff(nowMs, MIN_AGE_SECONDS))
            || exists e :: e in OutboundEntries(dirs) && e.mtime < Cutoff(nowMs, ORPHAN_AGE_SECONDS) && g == Group([e], e.mtime)
  {
    PlannedFrom(dirs, nowMs, maxAge, maxTotal, g);
    OrphansAreOld(OutboundEntries(dirs), Cutoff(nowMs, ORPHAN_AGE_SECONDS), g);
    AgePass(ArchiveGroups(dirs), nowMs, maxAge);
    if maxTotal.Some? {
      SizePass(AgeSplit(ArchiveGroups(dirs), nowMs, maxAge).1, maxTotal.value, Cutoff(nowMs, MIN_AGE_SECONDS));
    }
    hide AgeSplit, Sort, Cutoff, ArchiveGroups, Orphans, OutboundEntries, PlanOf, Victims;
  }

  /** With an age limit, every archive group that is older than it and than the grace floor is planned. */
  lemma AgePassIsComplete(dirs: seq<Dir>, nowMs: int, age: real, maxTotal: Option<nat>, g: Group)
    requires g in ArchiveGroups(dirs) && Aged(g, Cutoff(nowMs, age), Cutoff(nowMs, MIN_AGE_SECONDS))
    ensures g in PlanOf(dirs, nowMs, Some(age), maxTotal)
  {
    PlannedFrom(dirs, nowMs, Some(age), maxTotal, g);
    AgePass(ArchiveGroups(dirs), nowMs, Some(age));
    hide AgeSplit, SizeSplit, Sort, Cutoff, ArchiveGroups, Orphans, OutboundEntries, PlanOf;
  }

  /** With a size limit, the size pass is as small as it can be, over what the age pass left. */
  lemma SizePassIsMinimal(dirs: seq<Dir>, nowMs: int, maxAge: Option<real>, max: nat)
    ensures var p := PartsOf(dirs, nowMs, maxAge, Some(max));
      && p.victims + p.kept == Sort(AgeSplit(ArchiveGroups(dirs), nowMs, maxAge).1)
      && SizePassOf(max, Cutoff(nowMs, MIN_AGE_SECONDS), p.victims, p.kept)
  {
    SizePass(AgeSplit(ArchiveGroups(dirs), nowMs, maxAge).1, max, Cutoff(nowMs, MIN_AGE_SECONDS));
    hide AgeSplit, SizeSplit, SizePassOf, Cutoff, ArchiveGroups, Orphans;
  }

  // ---------------------------------------------------------------------------------------------
  // No file is planned twice
  // ---------------------------------------------------------------------------------------------

  predicate HasPath(g: Group, p: Path) { exists e :: e in g.members && e.path == p }

  function Counter(p: Path): Group -> nat { (g: Group) => if HasPath(g, p) then 1 else 0 }

  /** Every directory is listed once, with its own files, each once. */
  ghost predicate Listing(dirs: seq<Dir>) {
    && (forall i, j :: 0 <= i < j < |dirs| ==> dirs[i].parts != dirs[j].parts)
    && (forall d :: d in dirs ==> OneDirectory(d.entries) && forall e :: e in d.entries ==> e.path.dir == d.parts)
  }

  lemma {:induction false} SumOfNone(groups: seq<Group>, p: Path)
    requires forall g :: g in groups ==> !HasPath(g, p)
    ensures Sum(groups, Counter(p)) == 0
  {
    hide HasPath;
    if groups != [] {
      assert groups[0] in groups;
      SumOfNone(groups[1..], p);
    }
  }

  lemma {:induction false} SumAtMostOne(groups: seq<Group>, p: Path)
    requires forall i, j :: 0 <= i < j < |groups| ==> !(HasPath(groups[i], p) && HasPath(groups[j], p))
    ensures Sum(groups, Counter(p)) <= 1
  {
    hide HasPath;
    if groups != [] {
      if HasPath(groups[0], p) {
        forall g | g in groups[1..] ensures !HasPath(g, p) {
          var i :| 0 <= i < |groups[1..]| && groups[1..][i] == g;
          assert groups[i + 1] == g;
        }
        SumOfNone(groups[1..], p);
      } else {
        SumAtMostOne(groups[1..], p);
      }
    }
  }

  lemma PathInDirectory(entries: seq<Entry>, dir: seq<string>, i: nat, p: Path)
    requires i < |Groups(entries)| && forall e :: e in entries ==> e.path.dir == dir
    requires HasPath(Groups(entries)[i], p)
    ensures p.dir == dir && HasName(Groups(entries)[i], p.name)
  {
    EveryGroupIsWellPaired(entries, i);
  }

  lemma OneDirectoryOnce(entries: seq<Entry>, dir: seq<string>, p: Path)
    requires OneDirectory(entries) && forall e :: e in entries ==> e.path.dir == dir
    ensures Sum(Groups(entries), Counter(p)) <= if p.dir == dir then 1 else 0
  {
    hide Groups, HasPath, HasName;
    var gs := Groups(entries);
    if p.dir == dir {
      forall i, j | 0 <= i < j < |gs| ensures !(HasPath(gs[i], p) && HasPath(gs[j], p)) {
        if HasPath(gs[i], p) && HasPath(gs[j], p) {
          PathInDirectory(entries, dir, i, p);
          PathInDirectory(entries, dir, j, p);
          GroupsAreDisjoint(entries, i, j, p.name);
        }
      }
      SumAtMostOne(gs, p);
    } else {
      forall g | g in gs ensures !HasPath(g, p) {
        var i :| 0 <= i < |gs| && gs[i] == g;
        if HasPath(g, p) {
          PathInDirectory(entries, dir, i, p);
        }
      }
      SumOfNone(gs, p);
    }
  }

  predicate Listed(dirs: seq<Dir>, p: Path) { exists d :: d in dirs && d.parts == p.dir }

  lemma {:induction false} ArchiveOnce(dirs: seq<Dir>, p: Path)
    requires Listing(dirs)
    ensures Sum(ArchiveGroups(dirs), Counter(p)) <= if Listed(dirs, p) && IsArchive(p.dir) then 1 else 0
  {
    hide IsArchive, Groups, Counter;
    if dirs != [] {
      var d, tail := dirs[0], dirs[1..];
      assert d in dirs && forall x :: x in tail ==> x in dirs;
      ArchiveOnce(tail, p);
      OneDirectoryOnce(d.entries, d.parts, p);
      SumConcat(ArchiveOf(d), ArchiveGroups(tail), Counter(p));
      assert p.dir == d.parts ==> !Listed(tail, p);
    }
  }

  predicate HasEntry(entries: seq<Entry>, p: Path) { exists e :: e in entries && e.path == p }

  ghost predicate DistinctPaths(es: seq<Entry>) { forall i, j :: 0 <= i < j < |es| ==> es[i].path != es[j].path }

  lemma SingleHas(e: Entry, p: Path)
    ensures HasPath(Group([e], e.mtime), p) <==> e.path == p
  {
    assert e in Group([e], e.mtime).members;
  }

  lemma HasEntryHead(entries: seq<Entry>, p: Path)
    requires entries != []
    ensures HasEntry(entries, p) <==> entries[0].path == p || HasEntry(entries[1..], p)
  {
    assert entries == [entries[0]] + entries[1..];
  }

  lemma {:induction false} OrphansOnce(entries: seq<Entry>, cutoff: int, p: Path)
    requires DistinctPaths(entries)
    ensures Sum(Orphans(entries, cutoff), Counter(p)) <= if HasEntry(entries, p) then 1 else 0
  {
    if entries != [] {
      var e, tail := entries[0], Orphans(entries[1..], cutoff);
      OrphansOnce(entries[1..], cutoff, p);
      HasEntryHead(entries, p);
      SingleHas(e, p);
      assert e.path == p ==> !HasEntry(entries[1..], p);
      hide HasPath, HasEntry;
      assert Orphans(entries, cutoff) == (if e.mtime < cutoff then [Group([e], e.mtime)] else []) + tail;
      SumConcat(if e.mtime < cutoff then [Group([e], e.mtime)] else [], tail, Counter(p));
    }
  }

  lemma DistinctTogether(a: seq<Entry>, b: seq<Entry>)
    requires DistinctPaths(a) && DistinctPaths(b) && forall x, y :: x in a && y in b ==> x.path != y.path
    ensures DistinctPaths(a + b)
  {
  }

  lemma ListingTail(dirs: seq<Dir>)
    requires Listing(dirs) && dirs != []
    ensures Listing(dirs[1..]) && DistinctPaths(dirs[0].entries)
    ensures forall e :: e in dirs[0].entries ==> e.path.dir == dirs[0].parts
    ensures forall p: Path :: Listed(dirs[1..], p) ==> Listed(dirs, p) && p.dir != dirs[0].parts
  {
    assert dirs[0] in dirs && forall x :: x in dirs[1..] ==> x in dirs;
  }

  lemma {:induction false} OutboundDistinct(dirs: seq<Dir>)
    requires Listing(dirs)
    ensures DistinctPaths(OutboundEntries(dirs))
    ensures forall e :: e in OutboundEntries(dirs) ==> IsOutbound(e.path.dir) && Listed(dirs, e.path)
  {
    hide IsOutbound;
    if dirs != [] {
      OutboundDistinct(dirs[1..]);
      ListingTail(dirs);
      assert dirs[0] in dirs;
      hide Listing, DistinctPaths;
      DistinctTogether(OutboundOf(dirs[0]), OutboundEntries(dirs[1..]));
    }
  }

  /** For any set of files, no file is in two planned groups or twice in one pass. */
  lemma NoFileIsPlannedTwice(dirs: seq<Dir>, nowMs: int, maxAge: Option<real>, maxTotal: Option<nat>, p: Path)
    requires Listing(dirs)
    ensures Sum(PlanOf(dirs, nowMs, maxAge, maxTotal), Counter(p)) <= 1
  {
    var f := Counter(p);
    var q := PartsOf(dirs, nowMs, maxAge, maxTotal);
    var grace := Cutoff(nowMs, MIN_AGE_SECONDS);
    var (aged, young) := AgeSplit(ArchiveGroups(dirs), nowMs, maxAge);
    SortSums(AllGone(q), f);
    SumConcat(q.aged + q.victims, q.orphans, f);
    SumConcat(q.aged, q.victims, f);
    if maxTotal.Some? {
      SizePass(young, maxTotal.value, grace);
      SumConcat(q.victims, q.kept, f);
      SortSums(young, f);
    }
    if maxAge.Some? {
      AgedSums(ArchiveGroups(dirs), Cutoff(nowMs, maxAge.value), grace, f);
    }
    ArchiveOnce(dirs, p);
    OutboundDistinct(dirs);
    OrphansOnce(OutboundEntries(dirs), Cutoff(nowMs, ORPHAN_AGE_SECONDS), p);
    assert IsArchive(p.dir) ==> !IsOutbound(p.dir);
    assert HasEntry(OutboundEntries(dirs), p) ==> IsOutbound(p.dir);
    hide Sort, Cutoff, ArchiveGroups, OutboundEntries, Orphans, Listing, Listed, IsArchive, IsOutbound, SizePassOf, Counter, HasEntry;
  }
}
