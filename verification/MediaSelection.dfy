/** What of a listing a retention sweep looks at, how it measures it, and which of it is planned. */
module MediaSelection {
  import opened Options
  import opened MediaGroups
  import opened MediaPlan

  // ---------------------------------------------------------------------------------------------
  // What is looked at
  // ---------------------------------------------------------------------------------------------

  /** The archive groups are the groups of the archive directories. */
  lemma {:induction false} ArchiveGroupsAre(dirs: seq<Dir>, g: Group)
    ensures g in ArchiveGroups(dirs) <==> exists d :: d in dirs && IsArchive(d.parts) && g in Groups(d.entries)
    decreases |dirs|
  {
    hide IsArchive, Groups;
    if dirs != [] {
      ArchiveGroupsAre(dirs[1..], g);
      assert forall d :: d in dirs <==> d == dirs[0] || d in dirs[1..];
    }
  }

  /** The outbound files are those at or below the staging directory. */
  lemma {:induction false} OutboundEntriesAre(dirs: seq<Dir>, e: Entry)
    ensures e in OutboundEntries(dirs) <==> exists d :: d in dirs && d.parts != [] && d.parts[0] == ".outbound" && e in d.entries
    decreases |dirs|
  {
    if dirs != [] {
      OutboundEntriesAre(dirs[1..], e);
      assert forall d :: d in dirs <==> d == dirs[0] || d in dirs[1..];
    }
  }

  /** So every file of an archive directory is in an archive group. */
  lemma NoArchiveFileIsMissed(dirs: seq<Dir>, d: Dir, k: nat)
    requires d in dirs && IsArchive(d.parts) && OneDirectory(d.entries) && k < |d.entries|
    ensures exists g :: g in ArchiveGroups(dirs) && d.entries[k] in g.members
  {
    hide IsArchive, Groups;
    GroupsCover(d.entries, k);
    var g :| g in Groups(d.entries) && d.entries[k] in g.members;
    ArchiveGroupsAre(dirs, g);
  }

  // ---------------------------------------------------------------------------------------------
  // How it is measured
  // ---------------------------------------------------------------------------------------------

  /** A group is as large as its one or two files. */
  lemma BytesOfGroup(g: Group)
    requires 1 <= |g.members| <= 2
    ensures GroupBytes(g) == g.members[0].size + (if |g.members| == 2 then g.members[1].size else 0)
  {
    var rest := g.members[1..];
    if |g.members| == 2 {
      assert rest[1..] == [];
      assert EntryBytes(rest) == rest[0].size + EntryBytes(rest[1..]);
    } else {
      assert rest == [];
    }
    assert EntryBytes(g.members) == g.members[0].size + EntryBytes(rest);
  }

  /** And groups together are as large as each for itself. */
  lemma BytesTogether(a: seq<Group>, g: Group)
    ensures Bytes([]) == 0 && Bytes([g]) == GroupBytes(g) && Bytes(a + [g]) == Bytes(a) + GroupBytes(g)
  {
    assert [g][1..] == [];
    SumConcat(a, [g], GroupBytes);
  }

  // ---------------------------------------------------------------------------------------------
  // What is planned
  // ---------------------------------------------------------------------------------------------

  /** An outbound file older than a day. */
  ghost predicate IsOrphan(dirs: seq<Dir>, nowMs: int, g: Group) {
    exists e :: e in OutboundEntries(dirs) && e.mtime < Cutoff(nowMs, ORPHAN_AGE_SECONDS) && g == Group([e], e.mtime)
  }

  /** Without a size limit exactly the outbound orphans are planned and, with an age limit, the archive groups that are
      older than it and than the grace floor. */
  lemma PlanWithoutSizeLimit(dirs: seq<Dir>, nowMs: int, maxAge: Option<real>, g: Group)
    ensures g in PlanOf(dirs, nowMs, maxAge, None) <==>
            || IsOrphan(dirs, nowMs, g)
            || (maxAge.Some? && g in ArchiveGroups(dirs)
                && g.newest < Cutoff(nowMs, maxAge.value) && g.newest < Cutoff(nowMs, MIN_AGE_SECONDS))
  {
    PlannedFrom(dirs, nowMs, maxAge, None, g);
    AgePass(ArchiveGroups(dirs), nowMs, maxAge);
    OrphansAreOld(OutboundEntries(dirs), Cutoff(nowMs, ORPHAN_AGE_SECONDS), g);
    hide AgeSplit, Sort, Cutoff, ArchiveGroups, Orphans, OutboundEntries, PlanOf;
  }

  /** With one, these are planned too, and of the other archive groups exactly the victims of the size pass. */
  lemma PlanWithSizeLimit(dirs: seq<Dir>, nowMs: int, maxAge: Option<real>, max: nat, g: Group)
    ensures g in PlanOf(dirs, nowMs, maxAge, Some(max)) <==>
            g in PlanOf(dirs, nowMs, maxAge, None) || g in PartsOf(dirs, nowMs, maxAge, Some(max)).victims
  {
    PlannedFrom(dirs, nowMs, maxAge, None, g);
    PlannedFrom(dirs, nowMs, maxAge, Some(max), g);
    hide AgeSplit, Sort, Cutoff, ArchiveGroups, Orphans, OutboundEntries, PlanOf, Victims;
  }
}
