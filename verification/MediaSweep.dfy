/** A retention sweep beside turns that store files. Loop steps, worker threads, the planner thread and the clock
    interleave; a deletion batch keeps the loop from its first check to its last unlink, but not the threads. */
module MediaSweep {
  import opened Options
  import opened Sums

  type Path = string
  type TurnId = nat
  type WorkerId = nat

  /** The sweep never deletes what is younger than this. */
  const GRACE: int := 3_600_000_000_000

  /** Which of the router's three protections are in force, and whether turns register what they stored in time,
      which is not enforced but assumed. */
  datatype Rules = Rules(ioGuard: bool, recheck: bool, liveCheck: bool, promptRegister: bool)

  const ROUTER := Rules(true, true, true, true)

  /** A write worker has been handed to the executor, has looked whether its target exists, or has written it. */
  datatype Phase = Sent | Looked(existed: bool) | Wrote

  datatype Worker = Worker(turn: TurnId, path: Path, phase: Phase)

  /** A turn in flight: what it stored so far, and whether that is registered as live. */
  datatype Turn = Turn(stored: seq<Path>, registered: bool)

  /** The deletion batch that has the loop, and what it checked and not yet unlinked. */
  datatype Batch = Batch(passed: set<Path>)

  datatype State = State(
    clock: int,
    files: map<Path, int>,
    turns: map<TurnId, Turn>,
    workers: map<WorkerId, Worker>,
    inflight: int,
    live: map<Path, nat>,
    planNow: int,
    plan: map<Path, int>,
    batch: Option<Batch>)

  datatype Event =
    | Tick(to: int)
    | Arrive(t: TurnId)
    | Dispatch(t: TurnId, w: WorkerId, path: Path)
    | Look(w: WorkerId)
    | Write(w: WorkerId)
    | Settle(w: WorkerId)
    | Register(t: TurnId)
    | Leave(t: TurnId)
    | StartPlan
    | Observe(path: Path)
    | StartBatch
    | Recheck(path: Path)
    | Unlink(path: Path)
    | EndBatch

  // ---------------------------------------------------------------------------------------------
  // The live counts
  // ---------------------------------------------------------------------------------------------

  function RegisterAll(live: map<Path, nat>, paths: seq<Path>): map<Path, nat>
    decreases |paths|
  {
    if paths == [] then live
    else RegisterAll(live[paths[0] := (if paths[0] in live then live[paths[0]] else 0) + 1], paths[1..])
  }

  function ReleaseAll(live: map<Path, nat>, paths: seq<Path>): map<Path, nat>
    decreases |paths|
  {
    if paths == [] then live
    else
      var count := if paths[0] in live then live[paths[0]] else 0;
      ReleaseAll(if count <= 1 then live - {paths[0]} else live[paths[0] := count - 1], paths[1..])
  }

  // ---------------------------------------------------------------------------------------------
  // Steps
  // ---------------------------------------------------------------------------------------------

  predicate InUse(s: State, p: Path) { exists t :: t in s.turns && p in s.turns[t].stored }

  /** Stored and not registered yet. */
  predicate Waiting(s: State, t: TurnId, p: Path) { t in s.turns && !s.turns[t].registered && p in s.turns[t].stored }

  /** The time since the last write of a file that waits for its registration stays below the grace. */
  ghost predicate InTime(s: State, to: int) {
    forall t, p :: Waiting(s, t, p) && p in s.files ==> to < s.files[p] + GRACE
  }

  predicate LoopFree(s: State) { s.batch.None? }

  ghost predicate Enabled(r: Rules, s: State, e: Event) {
    match e
    case Tick(to) => s.clock <= to && (r.promptRegister ==> InTime(s, to))
    case Arrive(t) => LoopFree(s) && t !in s.turns && forall w :: w in s.workers ==> s.workers[w].turn != t
    case Dispatch(t, w, _) => LoopFree(s) && t in s.turns && !s.turns[t].registered && w !in s.workers
    case Look(w) => w in s.workers && s.workers[w].phase.Sent?
    case Write(w) => w in s.workers && s.workers[w].phase.Looked?
    case Settle(w) => LoopFree(s) && w in s.workers && s.workers[w].phase.Wrote?
    case Register(t) =>
      LoopFree(s) && t in s.turns && !s.turns[t].registered && forall w :: w in s.workers ==> s.workers[w].turn != t
    case Leave(t) => LoopFree(s) && t in s.turns
    case StartPlan => LoopFree(s)
    case Observe(p) => p in s.files && s.files[p] < s.planNow - GRACE
    case StartBatch => LoopFree(s) && (r.ioGuard ==> s.inflight == 0)
    case Recheck(p) =>
      && s.batch.Some? && p in s.plan && p in s.files
      && (r.liveCheck ==> p !in s.live) && (r.recheck ==> s.files[p] == s.plan[p])
    case Unlink(p) => s.batch.Some? && p in s.batch.value.passed
    case EndBatch => s.batch.Some?
  }

  /** A worker writes its target, or refreshes the time of the one it found; a target that is gone by then is made
      anew, because the open that precedes the refresh creates the file. */
  function Written(s: State, w: WorkerId): State
    requires w in s.workers
  {
    var i := s.workers[w];
    var s1 := s.(workers := s.workers[w := i.(phase := Wrote)], files := s.files[i.path := s.clock]);
    if i.turn in s.turns && !s.turns[i.turn].registered then
      s1.(turns := s.turns[i.turn := Turn(s.turns[i.turn].stored + [i.path], false)])
    else s1
  }

  function Step(s: State, e: Event): State {
    match e
    case Tick(to) => s.(clock := to)
    case Arrive(t) => s.(turns := s.turns[t := Turn([], false)])
    case Dispatch(t, w, p) => s.(workers := s.workers[w := Worker(t, p, Sent)], inflight := s.inflight + 1)
    case Look(w) =>
      if w !in s.workers then s
      else s.(workers := s.workers[w := s.workers[w].(phase := Looked(s.workers[w].path in s.files))])
    case Write(w) => if w !in s.workers then s else Written(s, w)
    case Settle(w) => s.(workers := s.workers - {w}, inflight := s.inflight - 1)
    case Register(t) =>
      if t !in s.turns then s
      else s.(live := RegisterAll(s.live, s.turns[t].stored), turns := s.turns[t := s.turns[t].(registered := true)])
    case Leave(t) =>
      if t !in s.turns then s
      else s.(live := if s.turns[t].registered then ReleaseAll(s.live, s.turns[t].stored) else s.live, turns := s.turns - {t})
    case StartPlan => s.(planNow := s.clock, plan := map[])
    case Observe(p) => if p in s.files then s.(plan := s.plan[p := s.files[p]]) else s
    case StartBatch => s.(batch := Some(Batch({})))
    case Recheck(p) => if s.batch.Some? then s.(batch := Some(Batch(s.batch.value.passed + {p}))) else s
    case Unlink(p) =>
      if s.batch.Some? then s.(files := s.files - {p}, batch := Some(Batch(s.batch.value.passed - {p}))) else s
    case EndBatch => s.(batch := None)
  }

  /** Files of any age are there when the process starts. */
  function Init(clock: int, files: map<Path, int>): State {
    State(clock, files, map[], map[], 0, map[], clock, map[], None)
  }

  ghost predicate ValidRun(r: Rules, s: State, es: seq<Event>)
    decreases |es|
  {
    es == [] || (Enabled(r, s, es[0]) && ValidRun(r, Step(s, es[0]), es[1..]))
  }

  function Run(s: State, es: seq<Event>): State
    decreases |es|
  {
    if es == [] then s else Run(Step(s, es[0]), es[1..])
  }

  // ---------------------------------------------------------------------------------------------
  // Counting
  // ---------------------------------------------------------------------------------------------

  function LiveCount(live: map<Path, nat>, p: Path): nat { if p in live then live[p] else 0 }

  function Held(t: Turn, p: Path): nat { if t.registered then multiset(t.stored)[p] else 0 }

  function HeldBy(turns: map<TurnId, Turn>, p: Path): map<nat, nat> { map t | t in turns :: Held(turns[t], p) }

  ghost predicate Positive(live: map<Path, nat>) { forall p :: p in live ==> live[p] > 0 }

  lemma HeadCount(paths: seq<Path>, p: Path)
    requires paths != []
    ensures multiset(paths)[p] == (if paths[0] == p then 1 else 0) + multiset(paths[1..])[p]
  {
    assert paths == [paths[0]] + paths[1..];
  }

  lemma {:induction false} RegisterCounts(live: map<Path, nat>, paths: seq<Path>, p: Path)
    requires Positive(live)
    ensures Positive(RegisterAll(live, paths))
    ensures LiveCount(RegisterAll(live, paths), p) == LiveCount(live, p) + multiset(paths)[p]
    decreases |paths|
  {
    if paths != [] {
      HeadCount(paths, p);
      RegisterCounts(live[paths[0] := (if paths[0] in live then live[paths[0]] else 0) + 1], paths[1..], p);
    }
  }

  lemma {:induction false} ReleaseCounts(live: map<Path, nat>, paths: seq<Path>, p: Path)
    requires Positive(live) && LiveCount(live, p) >= multiset(paths)[p]
    ensures Positive(ReleaseAll(live, paths))
    ensures LiveCount(ReleaseAll(live, paths), p) == LiveCount(live, p) - multiset(paths)[p]
    decreases |paths|
  {
    if paths != [] {
      HeadCount(paths, p);
      var count := if paths[0] in live then live[paths[0]] else 0;
      ReleaseCounts(if count <= 1 then live - {paths[0]} else live[paths[0] := count - 1], paths[1..], p);
    }
  }

  // ---------------------------------------------------------------------------------------------
  // Invariant
  // ---------------------------------------------------------------------------------------------

  ghost predicate Counted(s: State) {
    Positive(s.live) && forall p :: LiveCount(s.live, p) == Total(HeldBy(s.turns, p))
  }

  ghost predicate Kept(s: State) {
    forall p :: InUse(s, p) ==> p in s.files
  }

  ghost predicate Recent(s: State) {
    && (forall p :: p in s.plan ==> s.plan[p] < s.planNow - GRACE)
    && s.planNow <= s.clock
    && InTime(s, s.clock)
  }

  ghost predicate Guarded(s: State) {
    && s.inflight == |s.workers|
    && (s.batch.Some? ==> s.workers == map[])
    && (s.batch.Some? ==> forall p :: p in s.batch.value.passed ==> !InUse(s, p))
  }

  ghost predicate Inv(s: State) { Counted(s) && Kept(s) && Recent(s) && Guarded(s) }

  lemma RegisteredIsLive(s: State, t: TurnId, p: Path)
    requires Counted(s) && t in s.turns && s.turns[t].registered && p in s.turns[t].stored
    ensures p in s.live
  {
    var m := HeldBy(s.turns, p);
    assert m[t] > 0;
    PartOfTotal(m, t);
    assert LiveCount(s.live, p) == Total(m);
  }

  /** What passes the checks is in no turn's hands: it is not live, so no turn registered it, and it was not written
      since the plan, so no turn stored it and waits to register it. */
  lemma PassedIsNotOf(s: State, p: Path, t: TurnId)
    requires Inv(s) && Enabled(ROUTER, s, Recheck(p)) && t in s.turns
    ensures p !in s.turns[t].stored
  {
    if p in s.turns[t].stored {
      if s.turns[t].registered {
        RegisteredIsLive(s, t, p);
      } else if Waiting(s, t, p) {
      }
    }
  }

  lemma PassedIsFree(s: State, p: Path)
    requires Inv(s) && Enabled(ROUTER, s, Recheck(p))
    ensures !InUse(s, p)
  {
    forall t | t in s.turns ensures p !in s.turns[t].stored {
      PassedIsNotOf(s, p, t);
    }
  }

  // ---------------------------------------------------------------------------------------------
  // The steps
  // ---------------------------------------------------------------------------------------------

  /** No turn holds or waits for anything new, and files, plan and clock are as before. */
  ghost predicate Fewer(s: State, s': State) {
    && s'.files == s.files && s'.plan == s.plan && s'.planNow == s.planNow && s'.clock == s.clock
    && (forall p :: InUse(s', p) ==> InUse(s, p))
    && (forall t, p :: Waiting(s', t, p) ==> Waiting(s, t, p))
  }

  lemma FewerKeeps(s: State, s': State)
    requires Kept(s) && Recent(s) && Fewer(s, s')
    ensures Kept(s') && Recent(s')
  {
    hide InUse, Waiting;
  }

  lemma ArriveKeeps(s: State, e: Event)
    requires Inv(s) && e.Arrive? && Enabled(ROUTER, s, e)
    ensures Inv(Step(s, e))
  {
    var s' := Step(s, e);
    forall p ensures LiveCount(s'.live, p) == Total(HeldBy(s'.turns, p)) {
      TotalWith(HeldBy(s.turns, p), e.t, 0);
      assert HeldBy(s'.turns, p) == HeldBy(s.turns, p)[e.t := 0];
    }
    assert Counted(s');
    hide Counted, Kept, Recent;
    FewerKeeps(s, s');
  }

  lemma WorkerCount(s: State, e: Event)
    requires s.inflight == |s.workers| && (e.Dispatch? || e.Look? || e.Settle?) && Enabled(ROUTER, s, e)
    ensures Step(s, e).inflight == |Step(s, e).workers|
  {
    hide InTime, InUse, Waiting;
  }

  lemma WorkerKeeps(s: State, e: Event)
    requires Inv(s) && (e.Dispatch? || e.Look? || e.Settle?) && Enabled(ROUTER, s, e)
    ensures Inv(Step(s, e))
  {
    var s' := Step(s, e);
    WorkerCount(s, e);
    assert s.batch.None? && s'.batch.None?;
    assert s'.turns == s.turns && s'.live == s.live;
    hide Step, Enabled, Fewer, InUse, HeldBy;
    FewerKeeps(s, s');
    hide Counted, Kept, Recent;
  }

  lemma WrittenFacts(s: State, w: WorkerId)
    requires w in s.workers && s.workers[w].phase.Looked?
    ensures var s', path := Written(s, w), s.workers[w].path;
      && s'.workers.Keys == s.workers.Keys && s'.inflight == s.inflight && s'.live == s.live && s'.batch == s.batch
      && s'.clock == s.clock && s'.plan == s.plan && s'.planNow == s.planNow
      && (forall p :: HeldBy(s'.turns, p) == HeldBy(s.turns, p))
      && s'.files == s.files[path := s.clock]
      && (forall p :: InUse(s', p) ==> InUse(s, p) || p == path)
      && (forall t, p :: Waiting(s', t, p) ==> Waiting(s, t, p) || p == path)
  {
    hide InUse, Waiting;
    var s', i := Written(s, w), s.workers[w];
    forall p ensures HeldBy(s'.turns, p) == HeldBy(s.turns, p) {
    }
    forall p | InUse(s', p) ensures InUse(s, p) || p == i.path {
      UsedAfterWrite(s, w, p);
    }
    forall t, p | Waiting(s', t, p) ensures Waiting(s, t, p) || p == i.path {
      WaitingAfterWrite(s, w, t, p);
    }
  }

  lemma UsedAfterWrite(s: State, w: WorkerId, p: Path)
    requires w in s.workers && InUse(Written(s, w), p)
    ensures InUse(s, p) || p == s.workers[w].path
  {
    var s' := Written(s, w);
    var t :| t in s'.turns && p in s'.turns[t].stored;
    assert t in s.turns;
    assert p in s.turns[t].stored || p == s.workers[w].path;
  }

  lemma WaitingAfterWrite(s: State, w: WorkerId, t: TurnId, p: Path)
    requires w in s.workers && Waiting(Written(s, w), t, p)
    ensures Waiting(s, t, p) || p == s.workers[w].path
  {
  }

  lemma WriteKeeps(s: State, e: Event)
    requires Inv(s) && e.Write? && Enabled(ROUTER, s, e)
    ensures Inv(Step(s, e))
  {
    var s', path := Step(s, e), s.workers[e.w].path;
    assert s.batch.None?;
    WrittenFacts(s, e.w);
    hide Written, HeldBy, InUse, Waiting;
    hide Counted;
    assert |s.workers| == |s.workers.Keys| && |s'.workers| == |s'.workers.Keys|;
  }

  lemma RegisterKeeps(s: State, e: Event)
    requires Inv(s) && e.Register? && Enabled(ROUTER, s, e)
    ensures Inv(Step(s, e))
  {
    var s', i := Step(s, e), s.turns[e.t];
    forall p ensures LiveCount(s'.live, p) == Total(HeldBy(s'.turns, p)) {
      RegisterCounts(s.live, i.stored, p);
      TotalUpdate(HeldBy(s.turns, p), e.t, multiset(i.stored)[p]);
      assert HeldBy(s'.turns, p) == HeldBy(s.turns, p)[e.t := multiset(i.stored)[p]];
    }
    assert Positive(s'.live) by { RegisterCounts(s.live, i.stored, ""); }
    assert Counted(s');
    hide Counted, Kept, Recent, RegisterAll;
    FewerKeeps(s, s');
  }

  lemma LeaveCount(s: State, t: TurnId, p: Path)
    requires Counted(s) && t in s.turns
    ensures var s' := Step(s, Leave(t));
      LiveCount(s'.live, p) == Total(HeldBy(s'.turns, p)) && Positive(s'.live)
  {
    var s', i := Step(s, Leave(t)), s.turns[t];
    var m: map<nat, nat> := HeldBy(s.turns, p);
    TotalWithout(m, t);
    assert LiveCount(s.live, p) == Total(m);
    assert HeldBy(s'.turns, p) == m - {t};
    assert m[t] == Held(i, p);
    hide HeldBy, ReleaseAll, Total;
    if i.registered {
      ReleaseCounts(s.live, i.stored, p);
    }
  }

  lemma LeaveCounts(s: State, t: TurnId)
    requires Counted(s) && t in s.turns
    ensures Counted(Step(s, Leave(t)))
  {
    hide Step, LiveCount, HeldBy, Positive;
    forall p ensures LiveCount(Step(s, Leave(t)).live, p) == Total(HeldBy(Step(s, Leave(t)).turns, p)) {
      LeaveCount(s, t, p);
    }
    LeaveCount(s, t, "");
  }

  lemma LeaveKeeps(s: State, e: Event)
    requires Inv(s) && e.Leave? && Enabled(ROUTER, s, e)
    ensures Inv(Step(s, e))
  {
    LeaveCounts(s, e.t);
    hide Counted, Kept, Recent, ReleaseAll;
    FewerKeeps(s, Step(s, e));
  }

  lemma PlanKeeps(s: State, e: Event)
    requires Inv(s) && Enabled(ROUTER, s, e) && (e.Tick? || e.StartPlan? || e.Observe?)
    ensures Inv(Step(s, e))
  {
    var s' := Step(s, e);
    SameTurnsSameUse(s, s');
    hide Counted, InUse, Waiting;
  }

  lemma BatchKeeps(s: State, e: Event)
    requires Inv(s) && Enabled(ROUTER, s, e) && (e.StartBatch? || e.Recheck? || e.EndBatch?)
    ensures Inv(Step(s, e))
  {
    var s' := Step(s, e);
    SameTurnsSameUse(s, s');
    if e.Recheck? {
      PassedIsFree(s, e.path);
    }
    hide Counted, InUse, Waiting;
    if e.StartBatch? {
      assert |s.workers| == 0;
    }
  }

  lemma UnlinkKeepsFiles(s: State, s': State, p: Path)
    requires Kept(s) && Recent(s) && !InUse(s, p) && s'.turns == s.turns && s'.files == s.files - {p}
    requires s'.plan == s.plan && s'.planNow == s.planNow && s'.clock == s.clock
    ensures Kept(s') && Recent(s')
  {
    SameTurnsSameUse(s, s');
    hide InUse, Waiting;
    forall t, q | Waiting(s', t, q) ensures q != p && Waiting(s, t, q) {
      WaitingIsUse(s, t, q);
    }
  }

  lemma UnlinkKeeps(s: State, e: Event)
    requires Inv(s) && Enabled(ROUTER, s, e) && e.Unlink?
    ensures Inv(Step(s, e))
  {
    var s' := Step(s, e);
    SameTurnsSameUse(s, s');
    hide Counted, InUse, Waiting, HeldBy;
    assert !InUse(s, e.path);
    UnlinkKeepsFiles(s, s', e.path);
    hide Kept, Recent;
  }

  lemma SameTurnsSameUse(s: State, s': State)
    requires s'.turns == s.turns
    ensures forall p :: InUse(s', p) <==> InUse(s, p)
    ensures forall t, p :: Waiting(s', t, p) <==> Waiting(s, t, p)
  {
  }

  lemma WaitingIsUse(s: State, t: TurnId, p: Path)
    requires Waiting(s, t, p)
    ensures InUse(s, p)
  {
  }

  lemma StepKeeps(s: State, e: Event)
    requires Inv(s) && Enabled(ROUTER, s, e)
    ensures Inv(Step(s, e))
  {
    hide *;
    match e
    case Arrive(_) => ArriveKeeps(s, e);
    case Dispatch(_, _, _) => WorkerKeeps(s, e);
    case Look(_) => WorkerKeeps(s, e);
    case Settle(_) => WorkerKeeps(s, e);
    case Write(_) => WriteKeeps(s, e);
    case Register(_) => RegisterKeeps(s, e);
    case Leave(_) => LeaveKeeps(s, e);
    case Tick(_) => PlanKeeps(s, e);
    case StartPlan => PlanKeeps(s, e);
    case Observe(_) => PlanKeeps(s, e);
    case Unlink(_) => UnlinkKeeps(s, e);
    case StartBatch => BatchKeeps(s, e);
    case Recheck(_) => BatchKeeps(s, e);
    case EndBatch => BatchKeeps(s, e);
  }

  lemma InitIsGood(clock: int, files: map<Path, int>)
    ensures Inv(Init(clock, files))
  {
    forall p ensures LiveCount(map[], p) == Total(HeldBy(map[], p)) {
      assert HeldBy(map[], p) == map[];
    }
  }

  lemma {:induction false} RunKeeps(s: State, es: seq<Event>)
    requires Inv(s) && ValidRun(ROUTER, s, es)
    ensures Inv(Run(s, es))
    decreases |es|
  {
    hide Inv, Step, Enabled;
    if es != [] {
      StepKeeps(s, es[0]);
      RunKeeps(Step(s, es[0]), es[1..]);
    }
  }

  // ---------------------------------------------------------------------------------------------
  // What it is for
  // ---------------------------------------------------------------------------------------------

  /** For any interleaving, no sweep step unlinks a file that a turn in flight has stored and not released, and such a
      file is there. */
  lemma SweepIsSafe(clock: int, files: map<Path, int>, es: seq<Event>, p: Path)
    requires ValidRun(ROUTER, Init(clock, files), es)
    ensures var s := Run(Init(clock, files), es);
      InUse(s, p) ==> p in s.files && !Enabled(ROUTER, s, Unlink(p))
  {
    InitIsGood(clock, files);
    RunKeeps(Init(clock, files), es);
  }

  /** The steps of planner and deletion: a plan starts empty and notes what it sees, a batch checks and then unlinks what it
      checked, each file once, and leaves everything else alone. */
  lemma SweepOutcomes(r: Rules, s: State, p: Path)
    ensures Step(s, StartPlan) == s.(planNow := s.clock, plan := map[])
    ensures Enabled(r, s, Observe(p)) ==> Step(s, Observe(p)) == s.(plan := s.plan[p := s.files[p]])
    ensures Step(s, StartBatch) == s.(batch := Some(Batch({})))
    ensures Enabled(r, s, Recheck(p)) ==> Step(s, Recheck(p)) == s.(batch := Some(Batch(s.batch.value.passed + {p})))
    ensures Enabled(r, s, Unlink(p)) ==>
      Step(s, Unlink(p)) == s.(files := s.files - {p}, batch := Some(Batch(s.batch.value.passed - {p})))
    ensures Step(s, EndBatch) == s.(batch := None)
  {
  }

  /** A worker that found its target has it still. */
  ghost predicate FoundIsThere(s: State) {
    forall w :: w in s.workers && s.workers[w].phase == Looked(true) ==> s.workers[w].path in s.files
  }

  lemma FoundStaysThere(s: State, e: Event)
    requires Guarded(s) && FoundIsThere(s) && Enabled(ROUTER, s, e)
    ensures FoundIsThere(Step(s, e))
  {
  }

  lemma {:induction false} FoundStaysThereInRuns(s: State, es: seq<Event>)
    requires Inv(s) && FoundIsThere(s) && ValidRun(ROUTER, s, es)
    ensures FoundIsThere(Run(s, es))
    decreases |es|
  {
    if es != [] {
      FoundStaysThere(s, es[0]);
      StepKeeps(s, es[0]);
      hide Inv, Step, Enabled, FoundIsThere;
      FoundStaysThereInRuns(Step(s, es[0]), es[1..]);
    }
  }

  /** No sweep comes between a worker's look and its refresh: the file it found is the file it refreshes, and it is
      never made anew and empty. */
  lemma RefreshMeetsItsFile(clock: int, files: map<Path, int>, es: seq<Event>, w: WorkerId)
    requires ValidRun(ROUTER, Init(clock, files), es)
    ensures var s := Run(Init(clock, files), es);
      w in s.workers && s.workers[w].phase == Looked(true) ==> s.workers[w].path in s.files
  {
    InitIsGood(clock, files);
    FoundStaysThereInRuns(Init(clock, files), es);
  }

  // ---------------------------------------------------------------------------------------------
  // Each protection is needed
  // ---------------------------------------------------------------------------------------------

  /** A run that ends just before it unlinks a file that a turn in flight stored. */
  ghost predicate Harms(r: Rules, s: State, es: seq<Event>, p: Path) {
    ValidRun(r, s, es) && InUse(Run(s, es), p) && Enabled(r, Run(s, es), Unlink(p))
  }

  lemma RunCons(r: Rules, s: State, e: Event, es: seq<Event>)
    requires Enabled(r, s, e) && ValidRun(r, Step(s, e), es)
    ensures ValidRun(r, s, [e] + es) && Run(s, [e] + es) == Run(Step(s, e), es)
  {
    assert ([e] + es)[1..] == es;
  }

  lemma HarmsNow(r: Rules, s: State, p: Path)
    requires InUse(s, p) && Enabled(r, s, Unlink(p))
    ensures Harms(r, s, [], p)
  {
  }

  lemma Back(r: Rules, s: State, e: Event, es: seq<Event>, p: Path) returns (es': seq<Event>)
    requires Enabled(r, s, e) && Harms(r, Step(s, e), es, p)
    ensures Harms(r, s, es', p)
  {
    hide InUse, Step, Enabled;
    RunCons(r, s, e, es);
    es' := [e] + es;
  }

  const HOUR: int := 3_600_000_000_000

  /** An old file is planned, and a turn sends the same file to a write worker. */
  lemma PlannedAndSent(r: Rules, p: Path, s: State) returns (s': State)
    requires s == Init(2 * HOUR, map[p := 0])
    ensures s' == State(2 * HOUR, map[p := 0], map[1 := Turn([], false)], map[7 := Worker(1, p, Sent)], 1, map[],
                        2 * HOUR, map[p := 0], None)
    ensures forall es :: Harms(r, s', es, p) ==> exists es0 :: Harms(r, s, es0, p)
  {
    var s1 := Step(s, Observe(p));
    var s2 := Step(s1, Arrive(1));
    s' := Step(s2, Dispatch(1, 7, p));
    assert Enabled(r, s, Observe(p)) && Enabled(r, s1, Arrive(1)) && Enabled(r, s2, Dispatch(1, 7, p));
    hide *;
    forall es | Harms(r, s', es, p) ensures exists es0 :: Harms(r, s, es0, p) {
      var x := Back(r, s2, Dispatch(1, 7, p), es, p);
      x := Back(r, s1, Arrive(1), x, p);
      x := Back(r, s, Observe(p), x, p);
    }
  }

  /** A batch checks the file, and the worker that was sent before refreshes it for its turn. */
  lemma CheckedAndRefreshed(r: Rules, p: Path, s: State) returns (s': State)
    requires !r.ioGuard
    requires s == State(2 * HOUR, map[p := 0], map[1 := Turn([], false)], map[7 := Worker(1, p, Sent)], 1, map[],
                        2 * HOUR, map[p := 0], None)
    ensures s'.turns == map[1 := Turn([p], false)] && s'.batch == Some(Batch({p}))
    ensures forall es :: Harms(r, s', es, p) ==> exists es0 :: Harms(r, s, es0, p)
  {
    var s1 := Step(s, StartBatch);
    var s2 := Step(s1, Recheck(p));
    var s3 := Step(s2, Look(7));
    s' := Step(s3, Write(7));
    assert [] + [p] == [p] && {} + {p} == {p};
    assert Enabled(r, s, StartBatch) && Enabled(r, s1, Recheck(p)) && Enabled(r, s2, Look(7)) && Enabled(r, s3, Write(7));
    hide *;
    forall es | Harms(r, s', es, p) ensures exists es0 :: Harms(r, s, es0, p) {
      var x := Back(r, s3, Write(7), es, p);
      x := Back(r, s2, Look(7), x, p);
      x := Back(r, s1, Recheck(p), x, p);
      x := Back(r, s, StartBatch, x, p);
    }
  }

  /** Without the I/O guard a worker refreshes the file between the check and the unlink. */
  lemma GuardIsNeeded(p: Path)
    ensures exists es :: Harms(ROUTER.(ioGuard := false), Init(2 * HOUR, map[p := 0]), es, p)
  {
    var r := ROUTER.(ioGuard := false);
    var s := PlannedAndSent(r, p, Init(2 * HOUR, map[p := 0]));
    s := CheckedAndRefreshed(r, p, s);
    assert p in s.turns[1].stored;
    HarmsNow(r, s, p);
    hide *;
  }

  lemma StoredAgain(r: Rules, p: Path, s: State) returns (s': State)
    requires s == State(2 * HOUR, map[p := 0], map[1 := Turn([], false)], map[7 := Worker(1, p, Sent)], 1, map[],
                        2 * HOUR, map[p := 0], None)
    ensures s' == State(2 * HOUR, map[p := 2 * HOUR], map[1 := Turn([p], false)], map[], 0, map[], 2 * HOUR, map[p := 0], None)
    ensures forall es :: Harms(r, s', es, p) ==> exists es0 :: Harms(r, s, es0, p)
  {
    var s1 := Step(s, Look(7));
    var s2 := Step(s1, Write(7));
    s' := Step(s2, Settle(7));
    assert s2.turns[1].stored == [p];
    assert Enabled(r, s, Look(7)) && Enabled(r, s1, Write(7)) && Enabled(r, s2, Settle(7));
    hide *;
    forall es | Harms(r, s', es, p) ensures exists es0 :: Harms(r, s, es0, p) {
      var x := Back(r, s2, Settle(7), es, p);
      x := Back(r, s1, Write(7), x, p);
      x := Back(r, s, Look(7), x, p);
    }
  }

  /** Without the recheck a file goes that was refreshed after the plan and is not registered yet. */
  lemma RecheckIsNeeded(p: Path)
    ensures exists es :: Harms(ROUTER.(recheck := false), Init(2 * HOUR, map[p := 0]), es, p)
  {
    var r := ROUTER.(recheck := false);
    var s := PlannedAndSent(r, p, Init(2 * HOUR, map[p := 0]));
    s := StoredAgain(r, p, s);
    var s1 := Step(s, StartBatch);
    var s2 := Step(s1, Recheck(p));
    assert p in s2.turns[1].stored;
    HarmsNow(r, s2, p);
    assert Enabled(r, s, StartBatch) && Enabled(r, s1, Recheck(p));
    hide *;
    var es := Back(r, s1, Recheck(p), [], p);
    es := Back(r, s, StartBatch, es, p);
  }

  /** From a state where a turn has stored a file whose write is past the grace, a sweep that is not kept from it by
      the live counts deletes it. */
  lemma OldFileGoes(r: Rules, s: State, p: Path) returns (es: seq<Event>)
    requires p in s.files && s.files[p] < s.clock - GRACE && InUse(s, p) && s.batch.None? && s.inflight == 0
    requires r.liveCheck ==> p !in s.live
    ensures Harms(r, s, es, p)
  {
    var s1 := Step(s, StartPlan);
    var s2 := Step(s1, Observe(p));
    var s3 := Step(s2, StartBatch);
    var s4 := Step(s3, Recheck(p));
    SameTurnsSameUse(s, s4);
    HarmsNow(r, s4, p);
    assert Enabled(r, s, StartPlan) && Enabled(r, s1, Observe(p)) && Enabled(r, s2, StartBatch) && Enabled(r, s3, Recheck(p));
    hide *;
    es := Back(r, s3, Recheck(p), [], p);
    es := Back(r, s2, StartBatch, es, p);
    es := Back(r, s1, Observe(p), es, p);
    es := Back(r, s, StartPlan, es, p);
  }

  lemma StoreRun(r: Rules, p: Path, s: State) returns (s': State)
    requires s == Init(0, map[])
    ensures s'.files == map[p := 0] && s'.turns == map[1 := Turn([p], false)] && s'.workers == map[] && s'.live == map[]
    ensures s'.batch.None? && s'.inflight == 0 && s'.clock == 0
    ensures forall es :: Harms(r, s', es, p) ==> exists es0 :: Harms(r, s, es0, p)
  {
    var s1 := Step(s, Arrive(1));
    var s2 := Step(s1, Dispatch(1, 7, p));
    var s3 := Step(s2, Look(7));
    var s4 := Step(s3, Write(7));
    s' := Step(s4, Settle(7));
    assert s4.turns[1].stored == [p];
    assert s'.turns == map[1 := Turn([p], false)];
    assert Enabled(r, s, Arrive(1)) && Enabled(r, s1, Dispatch(1, 7, p)) && Enabled(r, s2, Look(7));
    assert Enabled(r, s3, Write(7)) && Enabled(r, s4, Settle(7));
    hide *;
    forall es | Harms(r, s', es, p) ensures exists es0 :: Harms(r, s, es0, p) {
      var x := Back(r, s4, Settle(7), es, p);
      x := Back(r, s3, Write(7), x, p);
      x := Back(r, s2, Look(7), x, p);
      x := Back(r, s1, Dispatch(1, 7, p), x, p);
      x := Back(r, s, Arrive(1), x, p);
    }
  }

  /** Without the live counts a file goes that a turn stored hours ago and still uses. */
  lemma LiveCountsAreNeeded(p: Path)
    ensures exists es :: Harms(ROUTER.(liveCheck := false), Init(0, map[]), es, p)
  {
    var r := ROUTER.(liveCheck := false);
    var s := StoreRun(r, p, Init(0, map[]));
    var s1 := Step(s, Register(1));
    var s2 := Step(s1, Tick(2 * HOUR));
    assert s2.turns[1].stored == [p] && p in s2.turns[1].stored;
    assert Enabled(r, s, Register(1)) && Enabled(r, s1, Tick(2 * HOUR));
    var es := OldFileGoes(r, s2, p);
    hide *;
    es := Back(r, s1, Tick(2 * HOUR), es, p);
    es := Back(r, s, Register(1), es, p);
  }

  /** And without a bound on the time between the write and the registration, all three together are not enough. */
  lemma PromptRegistrationIsNeeded(p: Path)
    ensures exists es :: Harms(ROUTER.(promptRegister := false), Init(0, map[]), es, p)
  {
    var r := ROUTER.(promptRegister := false);
    var s := StoreRun(r, p, Init(0, map[]));
    var s1 := Step(s, Tick(2 * HOUR));
    assert s1.turns[1].stored == [p] && p in s1.turns[1].stored;
    assert Enabled(r, s, Tick(2 * HOUR));
    var es := OldFileGoes(r, s1, p);
    hide *;
    es := Back(r, s, Tick(2 * HOUR), es, p);
  }

  // ---------------------------------------------------------------------------------------------
  // The counters in place
  // ---------------------------------------------------------------------------------------------

  class LiveMedia {
    var counts: map<Path, nat>

    constructor ()
      ensures counts == map[]
    {
      counts := map[];
    }

    method RegisterManifests(paths: seq<Path>)
      modifies this
      ensures counts == RegisterAll(old(counts), paths)
    {
      assert paths[0..] == paths;
      for i := 0 to |paths|
        invariant RegisterAll(counts, paths[i..]) == RegisterAll(old(counts), paths)
      {
        assert paths[i..][1..] == paths[i + 1..];
        counts := counts[paths[i] := (if paths[i] in counts then counts[paths[i]] else 0) + 1];
      }
    }

    method ReleaseManifests(paths: seq<Path>)
      modifies this
      ensures counts == ReleaseAll(old(counts), paths)
    {
      assert paths[0..] == paths;
      for i := 0 to |paths|
        invariant ReleaseAll(counts, paths[i..]) == ReleaseAll(old(counts), paths)
      {
        assert paths[i..][1..] == paths[i + 1..];
        var count := if paths[i] in counts then counts[paths[i]] else 0;
        if count <= 1 {
          counts := counts - {paths[i]};
        } else {
          counts := counts[paths[i] := count - 1];
        }
      }
    }
  }
}
