/** Where a suspended task gets when it is resumed, and what an ending or cancelled one leaves behind, as relations
    between the fields before and after. */
module TurnGateResumes {
  import opened TurnGate
  import opened TurnGateInvariant
  import opened TurnGateOutcomes

  // ---------------------------------------------------------------------------------------------
  // A permit that is given back
  // ---------------------------------------------------------------------------------------------

  /** `w` is the first of the queue that still waits. */
  predicate FirstWaiting(s: State, ws: seq<TaskId>, w: TaskId) {
    exists i :: 0 <= i < |ws| && ws[i] == w && FutOf(s, w) == Pending && forall j :: 0 <= j < i ==> FutOf(s, ws[j]) != Pending
  }

  predicate NobodyWaits(s: State, ws: seq<TaskId>) { forall w :: w in ws ==> FutOf(s, w) != Pending }

  /** The permit goes to the first of the queue that still waits, who is woken, and to the counter if nobody does. */
  ghost predicate PermitPassedOn(s: State, value: nat, ws: seq<TaskId>, woken: set<TaskId>) {
    if NobodyWaits(s, ws) then value == s.value + 1 && woken == {}
    else value == s.value && exists w: TaskId :: FirstWaiting(s, ws, w) && woken == {w}
  }

  lemma {:induction false} FirstPendingIsFirst(s: State, ws: seq<TaskId>)
    ensures var i := FirstPending(s, ws);
      if i < 0 then NobodyWaits(s, ws) else FirstWaiting(s, ws, ws[i])
    ensures var i := FirstPending(s, ws); forall j :: 0 <= j < i ==> FutOf(s, ws[j]) != Pending
  {
    if ws != [] && FutOf(s, ws[0]) != Pending {
      FirstPendingIsFirst(s, ws[1..]);
      var i := FirstPending(s, ws);
      assert forall j :: 0 < j < |ws| ==> ws[j] == ws[1..][j - 1];
    }
  }

  lemma SamePending(s: State, s1: State, ws: seq<TaskId>)
    requires forall w :: w in ws ==> (FutOf(s1, w) == Pending <==> FutOf(s, w) == Pending)
    ensures FirstPending(s1, ws) == FirstPending(s, ws)
  {
  }

  lemma PermitReleased(s: State, t: TaskId)
    requires t in s.tasks && NoIdlePermit(s) && t !in s.permitWaiters && forall w :: w in s.permitWaiters ==> w in s.tasks
    ensures var s' := ReleasePermit(s, t);
      && t in s'.tasks && s'.tasks[t] == s.tasks[t].(hasPermit := false)
      && s'.permitWaiters == s.permitWaiters && s'.locks == s.locks
      && exists woken :: PermitPassedOn(s, s'.value, s.permitWaiters, woken) && OnlyWakes(s, s', t, woken)
  {
    var s1 := s.(value := s.value + 1, tasks := s.tasks[t := s.tasks[t].(hasPermit := false)]);
    SamePending(s, s1, s.permitWaiters);
    FirstPendingIsFirst(s, s.permitWaiters);
    var i := FirstPending(s, s.permitWaiters);
    var s' := ReleasePermit(s, t);
    if i >= 0 {
      assert s.permitWaiters[i] in s.permitWaiters;
      assert OnlyWakes(s, s', t, {s.permitWaiters[i]});
      assert PermitPassedOn(s, s'.value, s.permitWaiters, {s.permitWaiters[i]});
    } else {
      assert OnlyWakes(s, s', t, {});
      assert PermitPassedOn(s, s'.value, s.permitWaiters, {});
    }
  }

  // ---------------------------------------------------------------------------------------------
  // The end of a task
  // ---------------------------------------------------------------------------------------------

  /** `t` is done and holds nothing. Whatever it held is let go, and who is next is woken. */
  ghost predicate EndsAndFrees(s: State, s': State, t: TaskId) {
    t in s.tasks && t in s'.tasks &&
    var task := s.tasks[t];
    var r, n := RouteLock(task.route), ProfileLock(task.profile);
    && s'.tasks[t] == task.(hasRoute := false, hasProfile := false, hasPermit := false, done := true)
    && LocksFreed(s, s', task) && s'.permitWaiters == s.permitWaiters
    && exists woken ::
         PermitOf(s, s'.value, task, woken) && OnlyWakes(s, s', t, woken + NextOf(s, n, task.hasProfile) + NextOf(s, r, task.hasRoute))
  }

  /** What becomes of the permit of a task that ends. */
  ghost predicate PermitOf(s: State, value: nat, task: Task, woken: set<TaskId>) {
    if task.hasPermit then PermitPassedOn(s, value, s.permitWaiters, woken) else value == s.value && woken == {}
  }

  function NextOf(s: State, n: LockName, held: bool): set<TaskId> { if held then Next(s, n) else {} }

  lemma WakesTogether(s: State, s1: State, s2: State, t: TaskId, a: set<TaskId>, b: set<TaskId>)
    requires t in s.tasks && OnlyWakes(s, s1, t, a) && OnlyWakes(s1, s2, t, b)
    ensures OnlyWakes(s, s2, t, a + b)
  {
  }

  lemma NextStays(s: State, s1: State, t: TaskId, woken: set<TaskId>, n: LockName)
    requires t in s.tasks && OnlyWakes(s, s1, t, woken) && GetLock(s1, n).waiters == GetLock(s, n).waiters
    requires forall w :: w in GetLock(s, n).waiters ==> w in s.tasks && w != t && w !in woken
    ensures Next(s1, n) == Next(s, n)
  {
  }

  /** A lock that is let go if it is held. */
  lemma LetGoIfHeld(s: State, n: LockName, t: TaskId)
    requires Inv(s) && t in s.tasks && s.tasks[t].awaiting == Ready
    ensures var s' := ReleaseIfHeld(s, n, t);
      && s'.tasks.Keys == s.tasks.Keys && PermitsAsBefore(s, s') && OtherLocks(s, s', {n})
      && s'.tasks[t] == (if Holds(s.tasks[t], n) then WithHold(s.tasks[t], n, false) else s.tasks[t])
      && GetLock(s', n) == (if Holds(s.tasks[t], n) then Lock(false, GetLock(s, n).waiters) else GetLock(s, n))
      && OnlyWakes(s, s', t, NextOf(s, n, Holds(s.tasks[t], n)))
  {
    assert LockOk(s, n);
    if Holds(s.tasks[t], n) {
      LetGo(s, n, t);
    }
    hide Release, GetLock;
  }

  lemma PermitIfHeld(s: State, t: TaskId) returns (woken: set<TaskId>)
    requires Inv(s) && t in s.tasks && s.tasks[t].awaiting == Ready
    ensures var s' := if s.tasks[t].hasPermit then ReleasePermit(s, t) else s;
      && Inv(s') && s'.tasks.Keys == s.tasks.Keys && s'.tasks[t] == s.tasks[t].(hasPermit := false)
      && s'.permitWaiters == s.permitWaiters && OtherLocks(s, s', {}) && OnlyWakes(s, s', t, woken)
      && PermitOf(s, s'.value, s.tasks[t], woken)
      && forall w :: w in woken ==> w in s.tasks && s.tasks[w].awaiting == OnPermit
  {
    woken := {};
    if s.tasks[t].hasPermit {
      ReleasePermitKeeps(s, t);
      PermitReleased(s, t);
      var s' := ReleasePermit(s, t);
      woken :| PermitPassedOn(s, s'.value, s.permitWaiters, woken) && OnlyWakes(s, s', t, woken);
      hide ReleasePermit;
    }
  }

  lemma QueueIsOf(s: State, n: LockName, w: TaskId)
    requires Inv(s) && w in GetLock(s, n).waiters
    ensures w in s.tasks && s.tasks[w].awaiting == OnLock(n)
  {
    assert LockOk(s, n);
  }

  lemma NextIsOf(s: State, n: LockName)
    requires Inv(s)
    ensures forall w :: w in Next(s, n) ==> w in s.tasks && s.tasks[w].awaiting == OnLock(n)
  {
    forall w | w in Next(s, n) ensures w in s.tasks && s.tasks[w].awaiting == OnLock(n) {
      QueueIsOf(s, n, w);
    }
  }

  lemma QueueUntouched(s: State, s1: State, t: TaskId, woken: set<TaskId>, n: LockName)
    requires Inv(s) && t in s.tasks && s.tasks[t].awaiting == Ready
    requires OnlyWakes(s, s1, t, woken) && GetLock(s1, n) == GetLock(s, n)
    requires forall w :: w in woken ==> w in s.tasks && s.tasks[w].awaiting != OnLock(n)
    ensures Next(s1, n) == Next(s, n)
  {
    forall w | w in GetLock(s, n).waiters ensures w in s.tasks && w != t && w !in woken {
      QueueIsOf(s, n, w);
    }
    NextStays(s, s1, t, woken, n);
  }

  /** The two locks of a task that ends. */
  lemma BothLetGo(s: State, t: TaskId)
    requires Inv(s) && t in s.tasks && s.tasks[t].awaiting == Ready
    ensures var task := s.tasks[t];
      var r, n := RouteLock(task.route), ProfileLock(task.profile);
      var s' := ReleaseIfHeld(ReleaseIfHeld(s, n, t), r, t);
      && t in s'.tasks && s'.tasks[t] == task.(hasRoute := false, hasProfile := false) && PermitsAsBefore(s, s')
      && LocksFreed(s, s', task)
      && OnlyWakes(s, s', t, NextOf(s, n, task.hasProfile) + NextOf(s, r, task.hasRoute))
  {
    var task := s.tasks[t];
    var r, n := RouteLock(task.route), ProfileLock(task.profile);
    LetGoIfHeld(s, n, t);
    ReleaseIfHeldKeeps(s, n, t);
    var s1 := ReleaseIfHeld(s, n, t);
    LetGoIfHeld(s1, r, t);
    var s2 := ReleaseIfHeld(s1, r, t);
    hide ReleaseIfHeld;
    var b, c := NextOf(s, n, task.hasProfile), NextOf(s, r, task.hasRoute);
    NextIsOf(s, n);
    FreedInTwo(s, s1, s2, task);
    QueueUntouched(s, s1, t, b, r);
    hide Inv, Next, LocksFreed, GetLock, OtherLocks;
    WakesTogether(s, s1, s2, t, b, c);
    hide OnlyWakes;
  }

  ghost predicate LocksFreed(s: State, s': State, task: Task) {
    var r, n := RouteLock(task.route), ProfileLock(task.profile);
    forall m :: GetLock(s', m) ==
      if (m == r && task.hasRoute) || (m == n && task.hasProfile) then Lock(false, GetLock(s, m).waiters) else GetLock(s, m)
  }

  lemma FreedFrom(s: State, s1: State, s2: State, s': State, task: Task, before: Task)
    requires OtherLocks(s, s1, {}) && LocksFreed(s1, s2, task) && OtherLocks(s2, s', {})
    requires task == before.(hasPermit := false)
    ensures LocksFreed(s, s', before)
  {
    hide GetLock;
  }

  lemma FreedInTwo(s: State, s1: State, s2: State, task: Task)
    requires var n := ProfileLock(task.profile);
      && OtherLocks(s, s1, {n})
      && GetLock(s1, n) == (if task.hasProfile then Lock(false, GetLock(s, n).waiters) else GetLock(s, n))
    requires var r := RouteLock(task.route);
      && OtherLocks(s1, s2, {r})
      && GetLock(s2, r) == (if task.hasRoute then Lock(false, GetLock(s1, r).waiters) else GetLock(s1, r))
    ensures LocksFreed(s, s2, task)
  {
    hide GetLock;
  }

  lemma EndsInSteps(s: State, s1: State, s3: State, t: TaskId, a: set<TaskId>, b: set<TaskId>, c: set<TaskId>)
    requires t in s.tasks && t in s1.tasks && t in s3.tasks && OtherLocks(s, s1, {})
    requires s1.tasks[t] == s.tasks[t].(hasPermit := false) && s1.permitWaiters == s.permitWaiters
    requires PermitOf(s, s1.value, s.tasks[t], a) && OnlyWakes(s, s1, t, a)
    requires s3.tasks[t] == s1.tasks[t].(hasRoute := false, hasProfile := false) && PermitsAsBefore(s1, s3)
    requires LocksFreed(s1, s3, s1.tasks[t]) && OnlyWakes(s1, s3, t, b + c)
    ensures var s', task := Finished(s3, t), s.tasks[t];
      && t in s'.tasks && s'.tasks[t] == task.(hasRoute := false, hasProfile := false, hasPermit := false, done := true)
      && LocksFreed(s, s', task) && s'.permitWaiters == s.permitWaiters && s'.value == s1.value
      && OnlyWakes(s, s', t, a + b + c)
  {
    WakesTogether(s, s1, s3, t, a, b + c);
    assert a + (b + c) == a + b + c;
    FinishedFacts(s, s3, t, a + b + c);
    FreedFrom(s, s1, s3, Finished(s3, t), s1.tasks[t], s.tasks[t]);
    hide OnlyWakes, PermitOf, LocksFreed, OtherLocks;
  }

  lemma EndsIs(s: State, s': State, t: TaskId, woken: set<TaskId>)
    requires t in s.tasks && t in s'.tasks
    requires var task := s.tasks[t];
      && s'.tasks[t] == task.(hasRoute := false, hasProfile := false, hasPermit := false, done := true)
      && LocksFreed(s, s', task) && s'.permitWaiters == s.permitWaiters && PermitOf(s, s'.value, task, woken)
      && OnlyWakes(s, s', t, woken + NextOf(s, ProfileLock(task.profile), task.hasProfile)
                             + NextOf(s, RouteLock(task.route), task.hasRoute))
    ensures EndsAndFrees(s, s', t)
  {
    hide OnlyWakes, PermitOf, LocksFreed, NextOf;
  }

  lemma UnwindLeads(s: State, t: TaskId)
    requires Inv(s) && t in s.tasks && s.tasks[t].awaiting == Ready
    ensures EndsAndFrees(s, Unwind(s, t), t)
  {
    var task := s.tasks[t];
    var r, n := RouteLock(task.route), ProfileLock(task.profile);
    var a := PermitIfHeld(s, t);
    var s1 := if task.hasPermit then ReleasePermit(s, t) else s;
    BothLetGo(s1, t);
    var s3 := ReleaseIfHeld(ReleaseIfHeld(s1, n, t), r, t);
    assert Unwind(s, t) == Finished(s3, t);
    hide ReleasePermit, PermitOf, ReleaseIfHeld, Unwind, LocksFreed, EndsAndFrees;
    QueueUntouched(s, s1, t, a, n);
    QueueUntouched(s, s1, t, a, r);
    hide Inv, Next, OnlyWakes, OtherLocks;
    EndsInSteps(s, s1, s3, t, a, NextOf(s, n, task.hasProfile), NextOf(s, r, task.hasRoute));
    EndsIs(s, Finished(s3, t), t, a);
  }

  lemma WokenAfter(s: State, s1: State, t: TaskId, woken: set<TaskId>, n: LockName, r: LockName)
    requires n != r && OnlyWakes(s, s1, t, woken) && t in s.tasks && s.tasks[t].awaiting == Ready
    requires forall w :: w in Next(s, n) ==> w in s.tasks && s.tasks[w].awaiting == OnLock(n)
    ensures forall w :: w in Next(s, n) ==> w in s1.tasks && s1.tasks[w].awaiting != OnLock(r)
  {
    hide Next;
  }

  /** A turn, a probe or a job that ends. */
  lemma FinishOutcomes(s: State, t: TaskId)
    requires Good(s) && Enabled(s, Finish(t))
    ensures EndsAndFrees(s, Step(s, Finish(t)), t)
  {
    UnwindLeads(s, t);
  }

  /** A cancellation is delivered at the next resumption; until then everything is as it was. */
  lemma CancelOutcomes(s: State, t: TaskId)
    requires Good(s) && Enabled(s, Cancel(t))
    ensures var s', task := Step(s, Cancel(t)), s.tasks[t];
      && Enabled(s', Resume(t, false)) && Interrupted(s'.tasks[t])
      && s'.tasks[t] == (if task.fut == Pending then task.(fut := Cancelled) else task.(mustCancel := true))
      && OtherLocks(s, s', {}) && PermitsAsBefore(s, s') && OnlyWakes(s, s', t, {})
  {
  }

  // ---------------------------------------------------------------------------------------------
  // Resumed on a lock
  // ---------------------------------------------------------------------------------------------

  /** One occurrence of `t` is gone, and the order of the others is kept. */
  predicate Removed(ws: seq<TaskId>, t: TaskId, rest: seq<TaskId>) {
    exists i :: 0 <= i < |ws| && ws[i] == t && rest == ws[..i] + ws[i + 1..]
  }

  lemma RemovedAt(ws: seq<TaskId>, t: TaskId, i: nat)
    requires i < |ws| && ws[i] == t
    ensures Removed(ws, t, ws[..i] + ws[i + 1..])
  {
  }

  lemma {:induction false} WithoutAt(ws: seq<TaskId>, t: TaskId) returns (i: nat)
    requires t in ws
    ensures i < |ws| && ws[i] == t && Without(ws, t) == ws[..i] + ws[i + 1..] && (ws[0] == t ==> i == 0)
  {
    if ws[0] == t {
      i := 0;
    } else {
      var k := WithoutAt(ws[1..], t);
      i := k + 1;
      assert ws[1..][..k] == ws[1..i] && ws[1..][k + 1..] == ws[i + 1..];
      assert ws[..i] == [ws[0]] + ws[1..i];
    }
  }

  lemma WithoutRemoves(ws: seq<TaskId>, t: TaskId)
    requires t in ws
    ensures Removed(ws, t, Without(ws, t))
    ensures ws[0] == t ==> Without(ws, t) == ws[1..]
  {
    var i := WithoutAt(ws, t);
    hide Removed, Without;
    RemovedAt(ws, t, i);
    assert i == 0 ==> ws[..i] + ws[i + 1..] == ws[1..];
  }

  function Back(task: Task): Task { task.(awaiting := Ready, mustCancel := false) }

  /** `t` is back from the queue of lock `n`, whose other waiters are `rest`. */
  function LeftQueue(s: State, t: TaskId, n: LockName, rest: seq<TaskId>): State
    requires t in s.tasks
  {
    s.(locks := s.locks[n := Lock(GetLock(s, n).locked, rest)], tasks := s.tasks[t := Back(s.tasks[t])])
  }

  /** What the holder of a route lock does next. */
  ghost predicate WithRoute(s: State, s': State, t: TaskId, skip: bool) {
    t in s.tasks && t in s'.tasks &&
    if s.tasks[t].kind == Drainer then EndsAndFrees(s, s', t)
    else if s.tasks[t].kind == Inbound && skip then s' == s
    else ProfileEntry(s, s', t, s.tasks[t])
  }

  /** What the holder of a profile lock does next: only inbound turns need a permit, and they do not wait for one
      with the profile lock in hand. */
  ghost predicate WithProfile(s: State, s': State, t: TaskId) {
    t in s.tasks && t in s'.tasks &&
    var task, n := s.tasks[t], ProfileLock(s.tasks[t].profile);
    if task.kind != Inbound then s' == s
    else if s.value > 0 then s' == s.(value := s.value - 1, tasks := s.tasks[t := task.(hasPermit := true)])
    else
      && s'.tasks[t] == task.(hasProfile := false, awaiting := OnPermit, fut := Pending, mustCancel := false)
      && GetLock(s', n) == Lock(false, GetLock(s, n).waiters) && OtherLocks(s, s', {n})
      && s'.value == 0 && s'.permitWaiters == s.permitWaiters + [t] && OnlyWakes(s, s', t, Next(s, n))
  }

  lemma WokenIsFirst(s: State, t: TaskId, n: LockName)
    requires Inv(s) && t in s.tasks && s.tasks[t].awaiting == OnLock(n) && s.tasks[t].fut == Woken
    ensures var l := GetLock(s, n); !l.locked && l.waiters != [] && l.waiters[0] == t
  {
    assert LockOk(s, n);
    assert t in GetLock(s, n).waiters;
  }

  lemma AcquireIsHolding(s: State, t: TaskId, n: LockName)
    requires Inv(s) && t in s.tasks && s.tasks[t].awaiting == OnLock(n) && s.tasks[t].fut == Woken && !s.tasks[t].mustCancel
    ensures GetLock(s, n).waiters != []
    ensures ResumeAcquire(s, n, t) == Holding(s, t, Back(s.tasks[t]), n, GetLock(s, n).waiters[1..])
  {
    WokenIsFirst(s, t, n);
    WithoutRemoves(GetLock(s, n).waiters, t);
    hide Without, Inv;
    assert s.locks[n := Lock(false, GetLock(s, n).waiters[1..])][n := Lock(true, GetLock(s, n).waiters[1..])]
        == s.locks[n := Lock(true, GetLock(s, n).waiters[1..])];
  }

  lemma AfterProfileLeads(s: State, t: TaskId)
    requires Inv(s) && t in s.tasks && s.tasks[t].awaiting == Ready && s.tasks[t].hasProfile && !s.tasks[t].hasPermit
    ensures WithProfile(s, AfterProfile(s, t), t)
  {
    var n := ProfileLock(s.tasks[t].profile);
    if s.tasks[t].kind == Inbound && s.value == 0 {
      LetGoIfHeld(s, n, t);
      var s1 := Release(s, n, t);
      assert s1 == ReleaseIfHeld(s, n, t);
      hide Release, ReleaseIfHeld, Inv, Next;
      var s' := AcquirePermit(s1, t);
      assert OnlyWakes(s1, s', t, {});
      WakesTogether(s, s1, s', t, Next(s, n), {});
      assert Next(s, n) + {} == Next(s, n);
      hide OnlyWakes;
    }
  }

  lemma AfterRouteLeads(s: State, t: TaskId, skip: bool)
    requires Inv(s) && t in s.tasks && s.tasks[t].awaiting == Ready && s.tasks[t].hasRoute && s.tasks[t].kind != Probe
    requires !s.tasks[t].hasProfile && !s.tasks[t].hasPermit && !s.tasks[t].done
    ensures WithRoute(s, AfterRoute(s, t, skip), t, skip)
  {
    if s.tasks[t].kind == Drainer {
      UnwindLeads(s, t);
    } else if s.tasks[t].kind != Inbound || !skip {
      EnterProfileLeads(s, t);
    }
    hide Inv, Unwind, EnterProfile, ProfileEntry, EndsAndFrees;
  }

  /** A waiter that is woken takes the lock, with those behind it still in their order, and goes on from there. */
  lemma ResumeOnLockOutcomes(s: State, t: TaskId, skip: bool)
    requires Good(s) && Enabled(s, Resume(t, skip)) && s.tasks[t].awaiting.OnLock? && !Interrupted(s.tasks[t])
    ensures var n := s.tasks[t].awaiting.name; var l := GetLock(s, n);
      && !l.locked && l.waiters != [] && l.waiters[0] == t
      && var mid := Holding(s, t, Back(s.tasks[t]), n, l.waiters[1..]);
         if n.RouteLock? then WithRoute(mid, Step(s, Resume(t, skip)), t, skip)
         else WithProfile(mid, Step(s, Resume(t, skip)), t)
  {
    var n := s.tasks[t].awaiting.name;
    assert Shape(s.tasks[t]);
    WokenIsFirst(s, t, n);
    AcquireIsHolding(s, t, n);
    ResumeAcquireKeeps(s, n, t);
    var mid := ResumeAcquire(s, n, t);
    hide Inv, ResumeAcquire, Holding, WithRoute, WithProfile, AfterRoute, AfterProfile;
    if n.RouteLock? {
      AfterRouteLeads(mid, t, skip);
    } else {
      AfterProfileLeads(mid, t);
    }
  }

  /** A waiter whose cancellation is delivered leaves the queue, wakes who is next if the lock is free, and ends. */
  ghost predicate LeavesAndEnds(s: State, s': State, t: TaskId, n: LockName) {
    exists rest: seq<TaskId>, mid: State :: LeftAndWoke(s, mid, t, n, rest) && EndsAndFrees(mid, s', t)
  }

  ghost predicate LeftAndWoke(s: State, mid: State, t: TaskId, n: LockName, rest: seq<TaskId>) {
    t in s.tasks && Removed(GetLock(s, n).waiters, t, rest) &&
    var left := LeftQueue(s, t, n, rest);
    && t in mid.tasks && mid.tasks[t] == Back(s.tasks[t]) && OtherLocks(left, mid, {}) && PermitsAsBefore(left, mid)
    && OnlyWakes(left, mid, t, NextOf(left, n, !GetLock(s, n).locked))
  }

  lemma LeaveQueueIs(s: State, t: TaskId, n: LockName)
    requires Inv(s) && t in s.tasks && s.tasks[t].awaiting == OnLock(n)
    ensures t in GetLock(s, n).waiters && LeaveQueue(s, n, t) == LeftQueue(s, t, n, Without(GetLock(s, n).waiters, t))
  {
    assert LockOk(s, n);
  }

  lemma WakeFirstWakes(s: State, n: LockName, t: TaskId)
    requires t in s.tasks && forall w :: w in GetLock(s, n).waiters ==> w in s.tasks && w != t
    ensures var s' := WakeFirst(s, n);
      && t in s'.tasks && s'.tasks[t] == s.tasks[t] && OtherLocks(s, s', {}) && PermitsAsBefore(s, s')
      && OnlyWakes(s, s', t, Next(s, n))
  {
  }

  lemma LeftQueueFacts(s: State, t: TaskId, n: LockName, rest: seq<TaskId>)
    requires t in s.tasks && LockOk(s, n) && forall w :: w in rest ==> w in GetLock(s, n).waiters && w != t
    ensures var left := LeftQueue(s, t, n, rest);
      && GetLock(left, n) == Lock(GetLock(s, n).locked, rest) && left.tasks[t] == Back(s.tasks[t])
      && forall w :: w in GetLock(left, n).waiters ==> w in left.tasks && w != t
  {
  }

  lemma WokeNobody(s: State, t: TaskId)
    requires t in s.tasks
    ensures OtherLocks(s, s, {}) && PermitsAsBefore(s, s) && OnlyWakes(s, s, t, {})
  {
  }

  lemma InterruptedLeaves(s: State, t: TaskId, n: LockName)
    requires Inv(s) && t in s.tasks && s.tasks[t].awaiting == OnLock(n) && Interrupted(s.tasks[t])
    ensures LeftAndWoke(s, ResumeAcquire(s, n, t), t, n, Without(GetLock(s, n).waiters, t))
  {
    var ws := GetLock(s, n).waiters;
    assert LockOk(s, n);
    LeaveQueueIs(s, t, n);
    WithoutRemoves(ws, t);
    WithoutFacts(ws, t);
    hide Inv, Without, LeaveQueue, WakeFirst, Removed;
    LeftQueueFacts(s, t, n, Without(ws, t));
    var left := LeaveQueue(s, n, t);
    assert ResumeAcquire(s, n, t) == if GetLock(left, n).locked then left else WakeFirst(left, n);
    hide LockOk, LeftQueue, OnlyWakes, OtherLocks, GetLock, ResumeAcquire, Next;
    WokeNobody(left, t);
    WakeFirstWakes(left, n, t);
  }

  lemma ResumeInterruptedOnLock(s: State, t: TaskId, skip: bool)
    requires Good(s) && Enabled(s, Resume(t, skip)) && s.tasks[t].awaiting.OnLock? && Interrupted(s.tasks[t])
    ensures LeavesAndEnds(s, Step(s, Resume(t, skip)), t, s.tasks[t].awaiting.name)
  {
    var n := s.tasks[t].awaiting.name;
    assert Shape(s.tasks[t]);
    ResumeAcquireKeeps(s, n, t);
    InterruptedLeaves(s, t, n);
    var mid := ResumeAcquire(s, n, t);
    UnwindLeads(mid, t);
    hide Inv, ResumeAcquire, Unwind, LeftAndWoke, EndsAndFrees;
    assert LeftAndWoke(s, mid, t, n, Without(GetLock(s, n).waiters, t)) && EndsAndFrees(mid, Step(s, Resume(t, skip)), t);
  }

  // ---------------------------------------------------------------------------------------------
  // Resumed on the permits
  // ---------------------------------------------------------------------------------------------

  /** `t` is back from the permit queue, with the permit that it was handed, if it was. */
  function LeftPermits(s: State, t: TaskId, rest: seq<TaskId>): State
    requires t in s.tasks
  {
    s.(permitWaiters := rest, tasks := s.tasks[t := Back(s.tasks[t]).(hasPermit := s.tasks[t].fut == Woken)])
  }

  /** With a permit in hand: run if the profile lock is free and nobody waits for it, and otherwise give the permit back
      and queue for the profile. */
  ghost predicate WithPermit(s: State, s': State, t: TaskId) {
    t in s.tasks && t in s'.tasks &&
    var task, n := s.tasks[t], ProfileLock(s.tasks[t].profile);
    if !GetLock(s, n).locked && !Contended(s, n) then s' == Holding(s, t, task, n, GetLock(s, n).waiters)
    else
      && s'.tasks[t] == task.(hasPermit := false, awaiting := OnLock(n), fut := Pending, mustCancel := false)
      && GetLock(s', n) == Lock(GetLock(s, n).locked, GetLock(s, n).waiters + [t]) && OtherLocks(s, s', {n})
      && s'.permitWaiters == s.permitWaiters
      && exists woken :: PermitPassedOn(s, s'.value, s.permitWaiters, woken) && OnlyWakes(s, s', t, woken)
  }

  lemma MarkIsNoMatter(s: State, t: TaskId)
    requires Inv(s) && t in s.tasks && s.tasks[t].awaiting == OnPermit
    ensures Inv(s.(tasks := s.tasks[t := s.tasks[t].(mustCancel := false)]))
  {
    var s1 := s.(tasks := s.tasks[t := s.tasks[t].(mustCancel := false)]);
    OnlyPermitsKeeps(s, s1);
    SamePermitsKeeps(s, s1);
  }

  lemma LeavesAs(s: State, t: TaskId)
    requires t in s.tasks && s.tasks[t].fut != Pending && (s.tasks[t].fut == Woken ==> !s.tasks[t].mustCancel)
    ensures LeavePermitQueue(s, t) == LeftPermits(s, t, Without(s.permitWaiters, t))
  {
    hide Without;
  }

  lemma NobodyLeftWaiting(s: State, t: TaskId, rest: seq<TaskId>)
    requires NoIdlePermit(s) && t in s.tasks && t !in rest && forall w :: w in rest ==> w in s.permitWaiters
    ensures var left := LeftPermits(s, t, rest); left.value == 0 || FirstPending(left, rest) < 0
  {
    var left := LeftPermits(s, t, rest);
    forall w | w in rest && left.value > 0 ensures FutOf(left, w) != Pending {
      assert w in s.permitWaiters;
    }
  }

  /** No permit lies idle, so there is nobody to wake. */
  lemma NothingToWake(s: State, t: TaskId)
    requires Inv(s) && t in s.tasks && s.tasks[t].awaiting == OnPermit && s.tasks[t].fut != Pending
    requires s.tasks[t].fut == Woken ==> !s.tasks[t].mustCancel
    ensures t in s.permitWaiters
    ensures var left := LeftPermits(s, t, Without(s.permitWaiters, t)); ResumePermit(s, t) == left && Inv(left)
  {
    WithoutFacts(s.permitWaiters, t);
    ResumePermitKeeps(s, t);
    LeavesAs(s, t);
    NobodyLeftWaiting(s, t, Without(s.permitWaiters, t));
    hide LockOk, Without, LeavePermitQueue;
  }

  lemma MarkDoesNotLeave(s: State, t: TaskId, rest: seq<TaskId>)
    requires t in s.tasks
    ensures var s0 := s.(tasks := s.tasks[t := s.tasks[t].(mustCancel := false)]);
      LeftPermits(s0, t, rest) == LeftPermits(s, t, rest)
  {
    var s0 := s.(tasks := s.tasks[t := s.tasks[t].(mustCancel := false)]);
    assert LeftPermits(s0, t, rest).tasks == LeftPermits(s, t, rest).tasks;
  }

  lemma MarkedLeaves(s: State, t: TaskId)
    requires Inv(s) && t in s.tasks && s.tasks[t].awaiting == OnPermit && s.tasks[t].fut == Woken
    ensures t in s.permitWaiters && Inv(LeftPermits(s, t, Without(s.permitWaiters, t)))
  {
    var s0 := s.(tasks := s.tasks[t := s.tasks[t].(mustCancel := false)]);
    MarkIsNoMatter(s, t);
    hide Inv, Without, ResumePermit, LeftPermits;
    NothingToWake(s0, t);
    MarkDoesNotLeave(s, t, Without(s.permitWaiters, t));
  }

  lemma HandedBack(s: State, t: TaskId)
    requires t in s.tasks && s.tasks[t].fut == Woken && s.tasks[t].mustCancel
    ensures var left := LeftPermits(s, t, Without(s.permitWaiters, t));
      LeavePermitQueue(s, t) == left.(value := left.value + 1, tasks := left.tasks[t := left.tasks[t].(hasPermit := false)])
  {
    hide Without;
  }

  lemma HandedAndCancelled(s: State, t: TaskId)
    requires Inv(s) && t in s.tasks && s.tasks[t].awaiting == OnPermit && s.tasks[t].fut == Woken && s.tasks[t].mustCancel
    ensures t in s.permitWaiters
    ensures var left := LeftPermits(s, t, Without(s.permitWaiters, t)); Inv(left) && ResumePermit(s, t) == ReleasePermit(left, t)
  {
    MarkedLeaves(s, t);
    HandedBack(s, t);
    var left := LeftPermits(s, t, Without(s.permitWaiters, t));
    var s1 := LeavePermitQueue(s, t);
    assert left.tasks[t].awaiting == Ready && left.tasks[t].hasPermit;
    hide Without, WakeWaiters, WakeOne, LeavePermitQueue, LeftPermits;
    ReleasePermitKeeps(left, t);
    assert ReleasePermit(left, t) == WakeOne(s1);
    assert NoIdlePermit(WakeOne(s1));
    hide Inv;
    WakeWaitersIsWakeOne(s1);
  }

  lemma UnwindTwice(s: State, t: TaskId)
    requires t in s.tasks && s.tasks[t].hasPermit && Inv(s) && s.tasks[t].awaiting == Ready
    ensures Unwind(ReleasePermit(s, t), t) == Unwind(s, t)
  {
    ReleasePermitKeeps(s, t);
    hide ReleaseIfHeld, Inv, ReleasePermit;
  }

  lemma ReenterLeads(s: State, t: TaskId)
    requires Inv(s) && t in s.tasks && s.tasks[t].awaiting == Ready && s.tasks[t].hasPermit && !s.tasks[t].hasProfile
    ensures WithPermit(s, ReenterProfile(s, t), t)
  {
    var n := ProfileLock(s.tasks[t].profile);
    ContendedIsNotClaimable(s, n);
    hide Contended;
    if !Claimable(s, n) {
      var woken := PermitIfHeld(s, t);
      var s1 := ReleasePermit(s, t);
      StillNotClaimable(s, s1, n, t, woken);
      hide Inv, Claimable, ReleasePermit;
      assert ReenterProfile(s, t) == Enqueue(s1, n, t);
      hide ReenterProfile;
      PassesOnAndQueues(s, s1, t, woken);
    } else {
      hide Inv, Claimable;
    }
  }

  lemma PassesOnAndQueues(s: State, s1: State, t: TaskId, woken: set<TaskId>)
    requires t in s.tasks && t in s1.tasks && s1.tasks[t] == s.tasks[t].(hasPermit := false)
    requires s1.permitWaiters == s.permitWaiters && OtherLocks(s, s1, {}) && OnlyWakes(s, s1, t, woken)
    requires PermitPassedOn(s, s1.value, s.permitWaiters, woken)
    requires var n := ProfileLock(s.tasks[t].profile); GetLock(s, n).locked || Contended(s, n)
    ensures WithPermit(s, Enqueue(s1, ProfileLock(s.tasks[t].profile), t), t)
  {
    var n := ProfileLock(s.tasks[t].profile);
    var s' := Enqueue(s1, n, t);
    assert OnlyWakes(s1, s', t, {});
    WakesTogether(s, s1, s', t, woken, {});
    assert woken + {} == woken;
    hide OnlyWakes, PermitPassedOn, Contended;
  }

  lemma StillNotClaimable(s: State, s1: State, n: LockName, t: TaskId, woken: set<TaskId>)
    requires !Claimable(s, n) && t in s.tasks && OnlyWakes(s, s1, t, woken) && OtherLocks(s, s1, {})
    requires Inv(s) && s.tasks[t].awaiting == Ready
    ensures !Claimable(s1, n)
  {
    if !GetLock(s, n).locked {
      var w :| w in GetLock(s, n).waiters && FutOf(s, w) != Cancelled;
      QueueIsOf(s, n, w);
      assert w in GetLock(s1, n).waiters && FutOf(s1, w) != Cancelled;
    }
  }

  /** A turn that was handed a permit leaves the queue with it, and nobody else is touched until it uses it or passes it
      on; one whose cancellation is delivered ends, and passes on the permit if it was handed one. */
  lemma ResumeOnPermitOutcomes(s: State, t: TaskId, skip: bool)
    requires Good(s) && Enabled(s, Resume(t, skip)) && s.tasks[t].awaiting == OnPermit
    ensures exists rest: seq<TaskId> ::
      && Removed(s.permitWaiters, t, rest)
      && (if Interrupted(s.tasks[t]) then EndsAndFrees(LeftPermits(s, t, rest), Step(s, Resume(t, skip)), t)
          else WithPermit(LeftPermits(s, t, rest), Step(s, Resume(t, skip)), t))
  {
    assert Shape(s.tasks[t]);
    var rest := Without(s.permitWaiters, t);
    var left := LeftPermits(s, t, rest);
    if s.tasks[t].fut == Woken && s.tasks[t].mustCancel {
      HandedAndCancelled(s, t);
      UnwindTwice(left, t);
    } else {
      NothingToWake(s, t);
    }
    WithoutRemoves(s.permitWaiters, t);
    hide Without, Removed, ResumePermit, ReleasePermit, Unwind, ReenterProfile, EndsAndFrees, WithPermit, Inv;
    if Interrupted(s.tasks[t]) {
      UnwindLeads(left, t);
    } else {
      ReenterLeads(left, t);
    }
  }
}
