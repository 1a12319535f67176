/** What each stretch of a task leads to, as a relation between the fields before and after it. */
module TurnGateOutcomes {
  import opened TurnGate
  import opened TurnGateInvariant

  /** Somebody waits for the lock and is not cancelled. */
  predicate Contended(s: State, n: LockName) {
    exists w :: w in GetLock(s, n).waiters && FutOf(s, w) != Cancelled
  }

  /** Who is woken when the lock is let go: the head of its queue, if it still waits. */
  function Next(s: State, n: LockName): set<TaskId> {
    var ws := GetLock(s, n).waiters;
    if ws != [] && FutOf(s, ws[0]) == Pending then {ws[0]} else {}
  }

  /** The tasks other than `t` are as before, but for those that were woken. */
  ghost predicate OnlyWakes(s: State, s': State, t: TaskId, woken: set<TaskId>) {
    && s'.max == s.max && s'.tasks.Keys == s.tasks.Keys + {t}
    && forall u :: u in s.tasks && u != t ==>
         s'.tasks[u] == if u in woken then s.tasks[u].(fut := Woken) else s.tasks[u]
  }

  ghost predicate OtherLocks(s: State, s': State, changed: set<LockName>) {
    forall m :: m !in changed ==> GetLock(s', m) == GetLock(s, m)
  }

  predicate PermitsAsBefore(s: State, s': State) { s'.value == s.value && s'.permitWaiters == s.permitWaiters }

  predicate NoWait(kind: Kind) { kind == Probe || kind == Synthetic(true) }

  /** Task `t` joins the queue of `n`, and nothing else happens. */
  ghost predicate Queues(s: State, s': State, t: TaskId, task: Task, n: LockName) {
    && t in s'.tasks && s'.tasks[t] == task.(awaiting := OnLock(n), fut := Pending, mustCancel := false)
    && GetLock(s', n) == Lock(GetLock(s, n).locked, GetLock(s, n).waiters + [t])
    && OtherLocks(s, s', {n}) && PermitsAsBefore(s, s') && OnlyWakes(s, s', t, {})
  }

  /** What a task that holds its route lock, or needs none, meets at its profile. */
  ghost predicate ProfileEntry(s: State, s': State, t: TaskId, task: Task) {
    var n, r := ProfileLock(task.profile), RouteLock(task.route);
    var l := GetLock(s, n);
    t in s'.tasks &&
    if l.locked && NoWait(task.kind) then
      && s'.tasks[t] == task.(hasRoute := false, done := true) && PermitsAsBefore(s, s')
      && (if task.hasRoute then
            && GetLock(s', r) == Lock(false, GetLock(s, r).waiters) && OtherLocks(s, s', {r})
            && OnlyWakes(s, s', t, Next(s, r))
          else OtherLocks(s, s', {}) && OnlyWakes(s, s', t, {}))
    else if l.locked || Contended(s, n) then Queues(s, s', t, task, n)
    else if task.kind != Inbound then
      && s'.tasks[t] == task.(hasProfile := true) && GetLock(s', n) == Lock(true, l.waiters)
      && OtherLocks(s, s', {n}) && PermitsAsBefore(s, s') && OnlyWakes(s, s', t, {})
    else if s.value > 0 then
      && s'.tasks[t] == task.(hasProfile := true, hasPermit := true) && GetLock(s', n) == Lock(true, l.waiters)
      && OtherLocks(s, s', {n}) && s'.value == s.value - 1 && s'.permitWaiters == s.permitWaiters
      && OnlyWakes(s, s', t, {})
    else
      && s'.tasks[t] == task.(awaiting := OnPermit, fut := Pending, mustCancel := false)
      && OtherLocks(s, s', {}) && s'.value == 0 && s'.permitWaiters == s.permitWaiters + [t]
      && OnlyWakes(s, s', t, {})
  }

  lemma ContendedIsNotClaimable(s: State, n: LockName)
    ensures Claimable(s, n) <==> !GetLock(s, n).locked && !Contended(s, n)
  {
  }

  /** A lock that is let go. */
  lemma LetGo(s: State, n: LockName, t: TaskId)
    requires t in s.tasks && t !in GetLock(s, n).waiters
    requires forall w :: w in GetLock(s, n).waiters ==> w in s.tasks
    ensures var s' := Release(s, n, t);
      && s'.tasks.Keys == s.tasks.Keys && s'.tasks[t] == WithHold(s.tasks[t], n, false)
      && GetLock(s', n) == Lock(false, GetLock(s, n).waiters) && OtherLocks(s, s', {n})
      && PermitsAsBefore(s, s') && OnlyWakes(s, s', t, Next(s, n))
  {
  }

  predicate AtProfile(task: Task) {
    && task.awaiting == Ready && !task.hasProfile && !task.hasPermit && !task.done
    && task.kind != Drainer && task.hasRoute == (task.kind != Probe)
  }

  lemma EnterProfileLeads(s: State, t: TaskId)
    requires Inv(s) && t in s.tasks && AtProfile(s.tasks[t])
    ensures ProfileEntry(s, EnterProfile(s, t), t, s.tasks[t])
  {
    var task := s.tasks[t];
    var n, r := ProfileLock(task.profile), RouteLock(task.route);
    ContendedIsNotClaimable(s, n);
    assert LockOk(s, n) && LockOk(s, r);
    if GetLock(s, n).locked && NoWait(task.kind) {
      GivesUp(s, t);
    } else if Claimable(s, n) && task.kind == Inbound && s.value == 0 {
      WaitsForCapacity(s, t);
    }
  }

  lemma GivesUp(s: State, t: TaskId)
    requires t in s.tasks && AtProfile(s.tasks[t]) && NoWait(s.tasks[t].kind) && LockOk(s, RouteLock(s.tasks[t].route))
    requires GetLock(s, ProfileLock(s.tasks[t].profile)).locked
    ensures ProfileEntry(s, EnterProfile(s, t), t, s.tasks[t])
  {
    var r := RouteLock(s.tasks[t].route);
    if s.tasks[t].hasRoute {
      LetGo(s, r, t);
      hide Release, GetLock;
    }
  }

  lemma WaitsForCapacity(s: State, t: TaskId)
    requires t in s.tasks && AtProfile(s.tasks[t]) && s.tasks[t].kind == Inbound && s.value == 0
    requires var n := ProfileLock(s.tasks[t].profile); LockOk(s, n) && Claimable(s, n)
    ensures ProfileEntry(s, EnterProfile(s, t), t, s.tasks[t])
  {
    var n := ProfileLock(s.tasks[t].profile);
    var s1 := Claim(s, n, t);
    LetGo(s1, n, t);
    assert Next(s1, n) == {};
  }

  // ---------------------------------------------------------------------------------------------
  // Starts
  // ---------------------------------------------------------------------------------------------

  function Newcomer(kind: Kind, route: nat, profile: nat): Task {
    Task(kind, route, profile, Ready, Pending, false, false, false, false, false)
  }

  /** `t` holds lock `n`, whose queue is now `waiters`. */
  function Holding(s: State, t: TaskId, task: Task, n: LockName, waiters: seq<TaskId>): State {
    s.(locks := s.locks[n := Lock(true, waiters)], tasks := s.tasks[t := WithHold(task, n, true)])
  }

  /** What a task that needs its route lock meets there. */
  ghost predicate RouteEntry(s: State, s': State, t: TaskId, task: Task, skip: bool) {
    var r := RouteLock(task.route);
    var l := GetLock(s, r);
    t in s'.tasks &&
    if l.locked && task.kind == Synthetic(true) then GoesAgain(s, s', t, task)
    else if l.locked || Contended(s, r) then Queues(s, s', t, task, r)
    else if task.kind == Drainer then GoesAgain(s, s', t, task)
    else if task.kind == Inbound && skip then
      && s'.tasks[t] == task.(hasRoute := true) && GetLock(s', r) == Lock(true, l.waiters)
      && OtherLocks(s, s', {r}) && PermitsAsBefore(s, s') && OnlyWakes(s, s', t, {})
    else ProfileEntry(Holding(s, t, task, r, l.waiters), s', t, task.(hasRoute := true))
  }

  /** `t` is done, and everything else is as before. */
  ghost predicate GoesAgain(s: State, s': State, t: TaskId, task: Task) {
    && t in s'.tasks && s'.tasks[t] == task.(done := true)
    && OtherLocks(s, s', {}) && PermitsAsBefore(s, s') && OnlyWakes(s, s', t, {})
  }

  lemma DrainerStep(s: State, t: TaskId, skip: bool)
    requires t in s.tasks && s.tasks[t].kind == Drainer && Fresh(s.tasks[t]) && Claimable(s, RouteLock(s.tasks[t].route))
    ensures var r := RouteLock(s.tasks[t].route);
      EnterRoute(s, t, skip) == Finished(Release(Claim(s, r, t), r, t), t)
  {
    hide Release;
  }

  lemma FinishedFacts(s: State, s1: State, t: TaskId, woken: set<TaskId>)
    requires t in s.tasks && OnlyWakes(s, s1, t, woken)
    ensures var s' := Finished(s1, t);
      && s'.tasks[t] == s1.tasks[t].(done := true) && OtherLocks(s1, s', {}) && PermitsAsBefore(s1, s')
      && OnlyWakes(s, s', t, woken)
  {
  }

  lemma DrainerGoes(s: State, t: TaskId, skip: bool)
    requires t in s.tasks && s.tasks[t].kind == Drainer && Fresh(s.tasks[t])
    requires var r := RouteLock(s.tasks[t].route); LockOk(s, r) && Claimable(s, r)
    ensures GoesAgain(s, EnterRoute(s, t, skip), t, s.tasks[t])
  {
    var r := RouteLock(s.tasks[t].route);
    DrainerStep(s, t, skip);
    hide EnterRoute;
    var s1 := Claim(s, r, t);
    LetGo(s1, r, t);
    assert Next(s1, r) == {};
    ClaimFacts(s, Release(s1, r, t), r, t);
    hide Release, Claimable, LockOk, Next, Claim, GetLock;
    FinishedFacts(s, Release(s1, r, t), t, {});
    hide OnlyWakes, Finished;
  }

  lemma ClaimFacts(s: State, s': State, n: LockName, t: TaskId)
    requires t in s.tasks && Claimable(s, n)
    ensures var s1 := Claim(s, n, t);
      && s1.tasks[t] == WithHold(s.tasks[t], n, true) && PermitsAsBefore(s, s1)
      && GetLock(s1, n) == Lock(true, GetLock(s, n).waiters) && OtherLocks(s, s1, {n}) && !GetLock(s, n).locked
      && (OnlyWakes(s1, s', t, {}) ==> OnlyWakes(s, s', t, {}))
  {
  }

  predicate Fresh(task: Task) {
    task.awaiting == Ready && !task.hasRoute && !task.hasProfile && !task.hasPermit && !task.done
  }

  lemma EnterRouteLeads(s: State, t: TaskId, skip: bool)
    requires Inv(s) && t in s.tasks && Fresh(s.tasks[t]) && s.tasks[t].kind != Probe
    ensures RouteEntry(s, EnterRoute(s, t, skip), t, s.tasks[t], skip)
  {
    var task := s.tasks[t];
    var r := RouteLock(task.route);
    ContendedIsNotClaimable(s, r);
    assert LockOk(s, r);
    if Claimable(s, r) {
      ClaimableKeeps(s, r, t);
      var s1 := Claim(s, r, t);
      assert s1 == Holding(s, t, task, r, GetLock(s, r).waiters);
      if task.kind == Drainer {
        DrainerGoes(s, t, skip);
      } else if task.kind != Inbound || !skip {
        hide Inv, ProfileEntry, EnterProfile;
        EnterProfileLeads(s1, t);
      }
    }
  }

  /** A task that no queue knows makes no difference to the locks. */
  lemma NewcomerIsNoMatter(s: State, t: TaskId, task: Task, n: LockName)
    requires LockOk(s, n) && t !in s.tasks
    ensures var s1 := s.(tasks := s.tasks[t := task]);
      && (Contended(s1, n) <==> Contended(s, n)) && Next(s1, n) == Next(s, n) && t !in GetLock(s, n).waiters
  {
    var s1 := s.(tasks := s.tasks[t := task]);
    assert forall w :: w in GetLock(s, n).waiters ==> FutOf(s1, w) == FutOf(s, w);
    if Contended(s, n) {
      var w :| w in GetLock(s, n).waiters && FutOf(s, w) != Cancelled;
      assert w in GetLock(s1, n).waiters && FutOf(s1, w) != Cancelled;
    }
  }

  /** Where a new task gets in its first stretch. */
  lemma StartLeads(s: State, t: TaskId, kind: Kind, route: nat, profile: nat, skip: bool)
    requires Good(s) && t !in s.tasks
    ensures var s', task := Step(s, Start(t, kind, route, profile, skip)), Newcomer(kind, route, profile);
      if kind == Probe then ProfileEntry(s, s', t, task) else RouteEntry(s, s', t, task, skip)
  {
    StartKeeps(s, t, kind, route, profile);
    var task := Newcomer(kind, route, profile);
    var s1, s' := StartTask(s, t, kind, route, profile), Step(s, Start(t, kind, route, profile, skip));
    assert LockOk(s, ProfileLock(profile)) && LockOk(s, RouteLock(route));
    NewcomerIsNoMatter(s, t, task, ProfileLock(profile));
    NewcomerIsNoMatter(s, t, task, RouteLock(route));
    if kind == Probe {
      EnterProfileLeads(s1, t);
      ProbeFromOld(s, s', t, task);
    } else {
      EnterRouteLeads(s1, t, skip);
      RouteFromOld(s, s', t, task, skip);
    }
  }

  lemma ProbeFromOld(s: State, s': State, t: TaskId, task: Task)
    requires t !in s.tasks && !task.hasRoute && task.kind == Probe
    requires var s1 := s.(tasks := s.tasks[t := task]); var n := ProfileLock(task.profile);
      ProfileEntry(s1, s', t, task) && (Contended(s1, n) <==> Contended(s, n))
    ensures ProfileEntry(s, s', t, task)
  {
    hide Contended;
    OldStateWakesNobody(s, s', t, task);
    hide OnlyWakes;
  }

  lemma OldStateWakesNobody(s: State, s': State, t: TaskId, task: Task)
    requires t !in s.tasks
    ensures OnlyWakes(s.(tasks := s.tasks[t := task]), s', t, {}) ==> OnlyWakes(s, s', t, {})
  {
  }

  lemma RouteFromOld(s: State, s': State, t: TaskId, task: Task, skip: bool)
    requires t !in s.tasks && task.kind != Probe
    requires var s1 := s.(tasks := s.tasks[t := task]); var r := RouteLock(task.route);
      RouteEntry(s1, s', t, task, skip) && (Contended(s1, r) <==> Contended(s, r))
    ensures RouteEntry(s, s', t, task, skip)
  {
    var r := RouteLock(task.route);
    var s1 := s.(tasks := s.tasks[t := task]);
    assert Holding(s1, t, task, r, GetLock(s, r).waiters) == Holding(s, t, task, r, GetLock(s, r).waiters);
    hide Contended, ProfileEntry, Holding;
    OldStateWakesNobody(s, s', t, task);
    hide OnlyWakes;
  }

  /** `t` runs, and the locks it holds for it are locked. */
  ghost predicate RunsWith(s: State, s': State, t: TaskId, task: Task, locks: set<LockName>, permits: nat) {
    && t in s'.tasks && s'.tasks[t] == task && task.awaiting == Ready && !task.done
    && (forall m :: GetLock(s', m) == if m in locks then Lock(true, GetLock(s, m).waiters) else GetLock(s, m))
    && s'.value == s.value - permits && s'.permitWaiters == s.permitWaiters && OnlyWakes(s, s', t, {})
  }

  /** `t` waits at `n`, last in its queue, and `held` is what it holds meanwhile. */
  ghost predicate WaitsAt(s: State, s': State, t: TaskId, task: Task, n: LockName, held: set<LockName>) {
    && t in s'.tasks && s'.tasks[t] == task.(awaiting := OnLock(n), fut := Pending, mustCancel := false)
    && (forall m :: GetLock(s', m) ==
          if m == n then Lock(GetLock(s, n).locked, GetLock(s, n).waiters + [t])
          else if m in held then Lock(true, GetLock(s, m).waiters) else GetLock(s, m))
    && PermitsAsBefore(s, s') && OnlyWakes(s, s', t, {})
  }

  /** `t` waits for a permit, last in that queue. */
  ghost predicate WaitsForPermit(s: State, s': State, t: TaskId, task: Task, held: set<LockName>) {
    && t in s'.tasks && s'.tasks[t] == task.(awaiting := OnPermit, fut := Pending, mustCancel := false)
    && (forall m :: GetLock(s', m) == if m in held then Lock(true, GetLock(s, m).waiters) else GetLock(s, m))
    && s'.value == s.value == 0 && s'.permitWaiters == s.permitWaiters + [t] && OnlyWakes(s, s', t, {})
  }

  /** How the first stretch of a task ends, for every kind and whatever it meets: refused or finished without a trace;
      last in the queue of its route lock; skipping under its route lock; last in the queue of its profile lock, with its
      route lock held; running; or last in the queue for a permit, with its route lock held and the profile lock as free
      as before. Nobody else is touched. */
  ghost predicate FirstStretch(s: State, s': State, t: TaskId, task: Task, skip: bool) {
    var r, n := RouteLock(task.route), ProfileLock(task.profile);
    var mine, held := task.(hasRoute := task.kind != Probe), if task.kind == Probe then {} else {r};
    if task.kind == Synthetic(true) && GetLock(s, r).locked then GoesAgain(s, s', t, task)
    else if task.kind != Probe && (GetLock(s, r).locked || Contended(s, r)) then WaitsAt(s, s', t, task, r, {})
    else if task.kind == Drainer then GoesAgain(s, s', t, task)
    else if task.kind == Inbound && skip then RunsWith(s, s', t, mine, held, 0)
    else if NoWait(task.kind) && GetLock(s, n).locked then GoesAgain(s, s', t, task)
    else if GetLock(s, n).locked || Contended(s, n) then WaitsAt(s, s', t, mine, n, held)
    else if task.kind != Inbound then RunsWith(s, s', t, mine.(hasProfile := true), held + {n}, 0)
    else if s.value > 0 then RunsWith(s, s', t, mine.(hasProfile := true, hasPermit := true), held + {n}, 1)
    else WaitsForPermit(s, s', t, mine, held)
  }

  lemma StartOutcomes(s: State, t: TaskId, kind: Kind, route: nat, profile: nat, skip: bool)
    requires Good(s) && t !in s.tasks
    ensures FirstStretch(s, Step(s, Start(t, kind, route, profile, skip)), t, Newcomer(kind, route, profile), skip)
  {
    var s', task := Step(s, Start(t, kind, route, profile, skip)), Newcomer(kind, route, profile);
    hide Step, Inv, RouteEntry, ProfileEntry, FirstStretch;
    StartLeads(s, t, kind, route, profile, skip);
    GoodLocks(s, RouteLock(route));
    GoodLocks(s, ProfileLock(profile));
    hide Good, LockOk;
    if kind == Probe {
      ProbeOutcome(s, s', t, task, skip);
    } else {
      RouteOutcome(s, s', t, task, skip);
    }
  }

  lemma GoodLocks(s: State, n: LockName)
    requires Good(s)
    ensures LockOk(s, n)
  {
  }

  lemma ProbeOutcome(s: State, s': State, t: TaskId, task: Task, skip: bool)
    requires task == Newcomer(Probe, task.route, task.profile) && ProfileEntry(s, s', t, task)
    ensures FirstStretch(s, s', t, task, skip)
  {
    hide GetLock, Contended, OnlyWakes;
  }

  lemma AtRouteOutcome(s: State, s': State, t: TaskId, task: Task, skip: bool)
    requires Fresh(task) && task.kind != Probe && RouteEntry(s, s', t, task, skip)
    requires var r := RouteLock(task.route);
      task.kind == Drainer || (task.kind == Inbound && skip) || GetLock(s, r).locked || Contended(s, r)
    ensures FirstStretch(s, s', t, task, skip)
  {
    hide GetLock, Contended, OnlyWakes, ProfileEntry, Holding;
  }

  lemma RouteOutcome(s: State, s': State, t: TaskId, task: Task, skip: bool)
    requires t !in s.tasks && task.kind != Probe && Fresh(task) && RouteEntry(s, s', t, task, skip)
    requires LockOk(s, RouteLock(task.route)) && LockOk(s, ProfileLock(task.profile))
    ensures FirstStretch(s, s', t, task, skip)
  {
    var r := RouteLock(task.route);
    hide Contended, GetLock, LockOk, FirstStretch, ProfileEntry, Holding, OnlyWakes, Queues;
    if task.kind == Drainer || (task.kind == Inbound && skip) || GetLock(s, r).locked || Contended(s, r) {
      AtRouteOutcome(s, s', t, task, skip);
    } else {
      ThroughRoute(s, s', t, task, skip);
    }
  }

  lemma HoldingFacts(s: State, s': State, t: TaskId, task: Task, r: LockName)
    requires t !in s.tasks
    ensures var mid := Holding(s, t, task, r, GetLock(s, r).waiters);
      && mid.value == s.value && mid.permitWaiters == s.permitWaiters
      && (forall m :: GetLock(mid, m) == if m == r then Lock(true, GetLock(s, r).waiters) else GetLock(s, m))
      && (OnlyWakes(mid, s', t, {}) ==> OnlyWakes(s, s', t, {}))
  {
  }

  lemma HoldingQueues(s: State, t: TaskId, task: Task, r: LockName, n: LockName)
    requires t !in s.tasks && LockOk(s, r) && LockOk(s, n) && n != r && !Contended(s, r)
    ensures var mid := Holding(s, t, task, r, GetLock(s, r).waiters);
      Next(mid, r) == {} && (Contended(mid, n) <==> Contended(s, n))
  {
    var mid := Holding(s, t, task, r, GetLock(s, r).waiters);
    assert forall w :: w in GetLock(s, r).waiters || w in GetLock(s, n).waiters ==> w in s.tasks && FutOf(mid, w) == FutOf(s, w);
    assert GetLock(mid, n) == GetLock(s, n) && GetLock(mid, r).waiters == GetLock(s, r).waiters;
    hide LockOk, GetLock, FutOf, Holding;
  }

  lemma ThroughRoute(s: State, s': State, t: TaskId, task: Task, skip: bool)
    requires t !in s.tasks && Fresh(task) && task.kind != Probe && task.kind != Drainer && !(task.kind == Inbound && skip)
    requires var r, n := RouteLock(task.route), ProfileLock(task.profile);
      && LockOk(s, r) && LockOk(s, n) && !GetLock(s, r).locked && !Contended(s, r)
      && ProfileEntry(Holding(s, t, task, r, GetLock(s, r).waiters), s', t, task.(hasRoute := true))
    ensures FirstStretch(s, s', t, task, skip)
  {
    var r, n := RouteLock(task.route), ProfileLock(task.profile);
    HoldingFacts(s, s', t, task, r);
    HoldingQueues(s, t, task, r, n);
    var mid, mine := Holding(s, t, task, r, GetLock(s, r).waiters), task.(hasRoute := true);
    hide Contended, Next, LockOk, Holding, OnlyWakes;
    if NoWait(task.kind) && GetLock(s, n).locked {
      hide RunsWith, WaitsAt, WaitsForPermit, GetLock;
    } else if GetLock(s, n).locked || Contended(s, n) {
      QueuesThrough(s, mid, s', t, mine, r, n);
      hide RunsWith, GoesAgain, WaitsForPermit, WaitsAt, GetLock;
    } else {
      hide WaitsAt, GoesAgain, GetLock;
    }
  }

  lemma QueuesThrough(s: State, mid: State, s': State, t: TaskId, task: Task, r: LockName, n: LockName)
    requires Queues(mid, s', t, task, n) && PermitsAsBefore(s, mid) && r != n
    requires forall m :: GetLock(mid, m) == if m == r then Lock(true, GetLock(s, r).waiters) else GetLock(s, m)
    requires OnlyWakes(mid, s', t, {}) ==> OnlyWakes(s, s', t, {})
    ensures WaitsAt(s, s', t, task, n, {r})
  {
    hide OnlyWakes, GetLock;
  }
}
