/** The invariant of the turn gate: lock exclusion, the wake transient, permit conservation, and what a
    suspended task may hold. Every operation keeps it, so every run does. */
module TurnGateInvariant {
  import opened TurnGate

  predicate Distinct(ws: seq<TaskId>) {
    forall i, j :: 0 <= i < j < |ws| ==> ws[i] != ws[j]
  }

  /** The queue of `n` is exactly the set of tasks suspended on it. */
  ghost predicate QueueOk(s: State, a: Await, ws: seq<TaskId>) {
    && Distinct(ws)
    && (forall w | w in ws :: w in s.tasks && s.tasks[w].awaiting == a)
    && (forall t | t in s.tasks && s.tasks[t].awaiting == a :: t in ws)
  }

  /** `h` is the one task that holds `n`. */
  ghost predicate HolderIs(s: State, n: LockName, h: TaskId) {
    h in s.tasks && forall t | t in s.tasks :: Holds(s.tasks[t], n) <==> t == h
  }

  /** A locked lock has exactly one holder, a free one has none. */
  ghost predicate HolderOk(s: State, n: LockName) {
    if GetLock(s, n).locked then exists h :: HolderIs(s, n, h)
    else forall t | t in s.tasks :: !Holds(s.tasks[t], n)
  }

  /** Only the head of a queue can be woken, and only while the lock is free. */
  predicate WokenIsHead(s: State, n: LockName) {
    var l := GetLock(s, n);
    forall w | w in l.waiters && FutOf(s, w) == Woken :: w == l.waiters[0] && !l.locked
  }

  ghost predicate LockCore(s: State, n: LockName) {
    && QueueOk(s, OnLock(n), GetLock(s, n).waiters)
    && WokenIsHead(s, n) && HolderOk(s, n)
  }

  /** A free lock with waiters has a head that is about to run. */
  predicate HeadRuns(s: State, n: LockName) {
    var l := GetLock(s, n);
    !l.locked && |l.waiters| > 0 ==> FutOf(s, l.waiters[0]) != Pending
  }

  ghost predicate LockOk(s: State, n: LockName) {
    LockCore(s, n) && HeadRuns(s, n)
  }

  /** Tasks that hold a permit or have been handed one. */
  predicate UsesPermit(task: Task) {
    task.hasPermit || (task.awaiting == OnPermit && task.fut == Woken)
  }

  function PermitUsers(s: State): set<TaskId> {
    set t | t in s.tasks && UsesPermit(s.tasks[t])
  }

  ghost predicate PermitCore(s: State) {
    && QueueOk(s, OnPermit, s.permitWaiters)
    && (forall t | t in s.tasks && s.tasks[t].hasPermit :: s.tasks[t].awaiting != OnPermit)
    && s.value + |PermitUsers(s)| == s.max
  }

  /** No permit lies idle while a turn waits for one. */
  predicate NoIdlePermit(s: State) {
    s.value > 0 ==> forall w | w in s.permitWaiters :: FutOf(s, w) != Pending
  }

  ghost predicate Inv(s: State) {
    && (forall n :: LockOk(s, n))
    && PermitCore(s) && NoIdlePermit(s)
  }

  /** Nothing but a wake-up happens to the tasks other than `t`. */
  ghost predicate OthersKept(s: State, s': State, t: TaskId) {
    && s'.tasks.Keys == s.tasks.Keys && s'.max == s.max
    && forall u | u in s.tasks && u != t ::
         s'.tasks[u] == s.tasks[u]
         || (s.tasks[u].awaiting != Ready && s.tasks[u].fut == Pending && s'.tasks[u] == s.tasks[u].(fut := Woken))
  }

  // ---------------------------------------------------------------------------------------------
  // Frames
  // ---------------------------------------------------------------------------------------------

  /** Nothing that `LockOk(_, n)` looks at differs. */
  ghost predicate SameLock(s: State, s': State, n: LockName) {
    && GetLock(s, n) == GetLock(s', n)
    && s.tasks.Keys == s'.tasks.Keys
    && forall t | t in s.tasks ::
         && (s.tasks[t].awaiting == OnLock(n) <==> s'.tasks[t].awaiting == OnLock(n))
         && (s.tasks[t].awaiting == OnLock(n) ==> s.tasks[t].fut == s'.tasks[t].fut)
         && (Holds(s.tasks[t], n) <==> Holds(s'.tasks[t], n))
  }

  /** Who holds a lock does not change when nobody takes it or gives it back. */
  lemma HolderStays(s: State, s': State, n: LockName)
    requires HolderOk(s, n) && GetLock(s', n).locked == GetLock(s, n).locked && s'.tasks.Keys == s.tasks.Keys
    requires forall t | t in s.tasks :: Holds(s'.tasks[t], n) <==> Holds(s.tasks[t], n)
    ensures HolderOk(s', n)
  {
    hide Holds, GetLock;
    if GetLock(s, n).locked {
      var h :| HolderIs(s, n, h);
      assert HolderIs(s', n, h);
    }
  }

  lemma SameLockKeeps(s: State, s': State, n: LockName)
    requires LockOk(s, n) && SameLock(s, s', n)
    ensures LockOk(s', n)
  {
    HolderStays(s, s', n);
    hide HolderOk, Holds;
  }

  /** One lock was changed and is in order again; the tasks that changed have to do with no other lock. */
  ghost predicate OnlyLock(s: State, s': State, n: LockName) {
    && s.tasks.Keys == s'.tasks.Keys && s.max == s'.max
    && s.value == s'.value && s.permitWaiters == s'.permitWaiters
    && (forall m | m != n :: GetLock(s, m) == GetLock(s', m))
    && forall t | t in s.tasks && s.tasks[t] != s'.tasks[t] :: OnlyAbout(s.tasks[t], s'.tasks[t], n)
  }

  ghost predicate OnlyAbout(a: Task, b: Task, n: LockName) {
    && (a.awaiting == Ready || a.awaiting == OnLock(n)) && (b.awaiting == Ready || b.awaiting == OnLock(n))
    && a.route == b.route && a.profile == b.profile && a.hasPermit == b.hasPermit
    && (n.RouteLock? ==> a.hasProfile == b.hasProfile && (a.hasRoute == b.hasRoute || a.route == n.route))
    && (n.ProfileLock? ==> a.hasRoute == b.hasRoute && (a.hasProfile == b.hasProfile || a.profile == n.profile))
  }

  lemma OnlyLockKeeps(s: State, s': State, n: LockName)
    requires forall m | m != n :: LockOk(s, m)
    requires PermitCore(s) && NoIdlePermit(s) && OnlyLock(s, s', n)
    ensures forall m | m != n :: LockOk(s', m)
    ensures PermitCore(s') && NoIdlePermit(s')
  {
    forall m | m != n ensures LockOk(s', m) {
      assert LockOk(s, m);
      SameLockKeeps(s, s', m);
    }
    SamePermitsKeeps(s, s');
  }

  /** Nothing a lock looks at was changed. */
  ghost predicate OnlyPermits(s: State, s': State) {
    && s.tasks.Keys == s'.tasks.Keys && s.locks == s'.locks
    && forall t | t in s.tasks && s.tasks[t] != s'.tasks[t] ::
         var a, b := s.tasks[t], s'.tasks[t];
         && (a.awaiting == Ready || a.awaiting == OnPermit) && (b.awaiting == Ready || b.awaiting == OnPermit)
         && a.route == b.route && a.profile == b.profile
         && a.hasRoute == b.hasRoute && a.hasProfile == b.hasProfile
  }

  lemma OnlyPermitsKeeps(s: State, s': State)
    requires (forall n :: LockOk(s, n)) && OnlyPermits(s, s')
    ensures forall n :: LockOk(s', n)
  {
    forall n ensures LockOk(s', n) {
      assert LockOk(s, n);
      SameLockKeeps(s, s', n);
    }
  }

  ghost predicate SamePermits(s: State, s': State) {
    && s.value == s'.value && s.max == s'.max && s.permitWaiters == s'.permitWaiters
    && s.tasks.Keys == s'.tasks.Keys
    && forall t | t in s.tasks ::
         && (s.tasks[t].awaiting == OnPermit <==> s'.tasks[t].awaiting == OnPermit)
         && (s.tasks[t].awaiting == OnPermit ==> s.tasks[t].fut == s'.tasks[t].fut)
         && s.tasks[t].hasPermit == s'.tasks[t].hasPermit
  }

  lemma SamePermitsKeeps(s: State, s': State)
    requires PermitCore(s) && NoIdlePermit(s) && SamePermits(s, s')
    ensures PermitCore(s') && NoIdlePermit(s')
  {
    assert PermitUsers(s) == PermitUsers(s');
  }

  // ---------------------------------------------------------------------------------------------
  // Queues
  // ---------------------------------------------------------------------------------------------

  lemma {:induction false} WithoutFacts(ws: seq<TaskId>, t: TaskId)
    requires Distinct(ws)
    ensures Distinct(Without(ws, t))
    ensures forall w :: w in Without(ws, t) <==> w in ws && w != t
    ensures |ws| > 0 && ws[0] != t ==> |Without(ws, t)| > 0 && Without(ws, t)[0] == ws[0]
  {
    if ws == [] {
    } else {
      assert ws == [ws[0]] + ws[1..];
      assert forall w :: w in ws <==> w == ws[0] || w in ws[1..];
      if ws[0] == t {
        assert t !in ws[1..];
      } else {
        WithoutFacts(ws[1..], t);
        var r := Without(ws[1..], t);
        assert Without(ws, t) == [ws[0]] + r;
        assert ws[0] !in ws[1..];
        assert ws[0] !in r;
      }
    }
  }

  // ---------------------------------------------------------------------------------------------
  // Lock operations
  // ---------------------------------------------------------------------------------------------

  lemma ClaimLock(s: State, n: LockName, t: TaskId)
    requires t in s.tasks && s.tasks[t].awaiting == Ready && NameFor(s.tasks[t], n) == n
    requires LockCore(s, n) && !GetLock(s, n).locked
    requires forall w | w in GetLock(s, n).waiters :: FutOf(s, w) != Woken
    ensures LockOk(Claim(s, n, t), n) && OnlyLock(s, Claim(s, n, t), n)
  {
    var s' := Claim(s, n, t);
    ClaimOnly(s, n, t);
    hide OnlyLock;
    assert HolderIs(s', n, t);
    hide HolderIs, Holds;
    assert QueueOk(s', OnLock(n), GetLock(s', n).waiters);
  }

  lemma ClaimOnly(s: State, n: LockName, t: TaskId)
    requires t in s.tasks && s.tasks[t].awaiting == Ready && NameFor(s.tasks[t], n) == n
    ensures OnlyLock(s, Claim(s, n, t), n)
  {
  }

  /** Taking the lock is safe when no waiter is woken: on the fast path because none can be, on wake-up
      because the woken waiter was the only one. */
  lemma ClaimKeeps(s: State, n: LockName, t: TaskId)
    requires t in s.tasks && s.tasks[t].awaiting == Ready && NameFor(s.tasks[t], n) == n
    requires LockCore(s, n) && (forall m | m != n :: LockOk(s, m)) && PermitCore(s) && NoIdlePermit(s)
    requires !GetLock(s, n).locked && forall w | w in GetLock(s, n).waiters :: FutOf(s, w) != Woken
    ensures Inv(Claim(s, n, t)) && OthersKept(s, Claim(s, n, t), t)
  {
    ClaimLock(s, n, t);
    OnlyLockKeeps(s, Claim(s, n, t), n);
  }

  lemma EnqueueLock(s: State, n: LockName, t: TaskId)
    requires t in s.tasks && s.tasks[t].awaiting == Ready && LockOk(s, n) && !Claimable(s, n)
    ensures LockOk(Enqueue(s, n, t), n) && OnlyLock(s, Enqueue(s, n, t), n)
  {
    var s' := Enqueue(s, n, t);
    EnqueueOnly(s, n, t);
    hide OnlyLock;
    var l, l' := GetLock(s, n), GetLock(s', n);
    assert t !in l.waiters;
    assert forall w :: w in l'.waiters <==> w in l.waiters || w == t;
    HolderStays(s, s', n);
    hide HolderOk, Holds;
    assert QueueOk(s', OnLock(n), l'.waiters);
    assert WokenIsHead(s', n);
  }

  lemma EnqueueOnly(s: State, n: LockName, t: TaskId)
    requires t in s.tasks && s.tasks[t].awaiting == Ready
    ensures OnlyLock(s, Enqueue(s, n, t), n)
  {
  }

  lemma EnqueueKeeps(s: State, n: LockName, t: TaskId)
    requires Inv(s) && t in s.tasks && s.tasks[t].awaiting == Ready
    requires !Claimable(s, n)
    ensures Inv(Enqueue(s, n, t)) && OthersKept(s, Enqueue(s, n, t), t)
  {
    assert LockOk(s, n);
    EnqueueLock(s, n, t);
    OnlyLockKeeps(s, Enqueue(s, n, t), n);
  }

  lemma WakeFirstKeeps(s: State, n: LockName, t: TaskId)
    requires LockCore(s, n) && !GetLock(s, n).locked
    requires forall m | m != n :: LockOk(s, m)
    requires PermitCore(s) && NoIdlePermit(s)
    requires t in s.tasks && s.tasks[t].awaiting == Ready
    ensures Inv(WakeFirst(s, n)) && OthersKept(s, WakeFirst(s, n), t) && WakeFirst(s, n).tasks[t] == s.tasks[t]
    ensures GetLock(WakeFirst(s, n), n) == GetLock(s, n)
    ensures WakeFirst(s, n).value == s.value && WakeFirst(s, n).permitWaiters == s.permitWaiters
  {
    var l := GetLock(s, n);
    assert |l.waiters| > 0 ==> l.waiters[0] in l.waiters;
    OnlyLockKeeps(s, WakeFirst(s, n), n);
  }

  /** The holder gives the lock back, and nobody is woken yet. */
  function Unlocked(s: State, n: LockName, t: TaskId): State
    requires t in s.tasks
  {
    s.(locks := s.locks[n := GetLock(s, n).(locked := false)],
       tasks := s.tasks[t := WithHold(s.tasks[t], n, false)])
  }

  lemma UnlockedFrame(s: State, n: LockName, t: TaskId)
    requires t in s.tasks && s.tasks[t].awaiting == Ready && Holds(s.tasks[t], n)
    ensures var s1 := Unlocked(s, n, t);
      && OnlyLock(s, s1, n) && OthersKept(s, s1, t) && s1.value == s.value && s1.permitWaiters == s.permitWaiters
      && t in s1.tasks && s1.tasks[t] == WithHold(s.tasks[t], n, false) && s1.tasks[t].awaiting == Ready
  {
  }

  lemma ReleaseKeeps(s: State, n: LockName, t: TaskId)
    requires Inv(s) && t in s.tasks && s.tasks[t].awaiting == Ready && Holds(s.tasks[t], n)
    ensures Inv(Release(s, n, t)) && OthersKept(s, Release(s, n, t), t)
    ensures Release(s, n, t).tasks[t] == WithHold(s.tasks[t], n, false)
    ensures Release(s, n, t).value == s.value && Release(s, n, t).permitWaiters == s.permitWaiters
    ensures !GetLock(Release(s, n, t), n).locked
  {
    var s1 := Unlocked(s, n, t);
    assert LockOk(s, n);
    UnlockedFrame(s, n, t);
    assert Release(s, n, t) == WakeFirst(s1, n);
    hide Unlocked, Release, OnlyLock, OthersKept, PermitCore, NoIdlePermit, LockCore, WakeFirst, WithHold, Holds;
    OnlyLockKeeps(s, s1, n);
    WakeFirstKeeps(s1, n, t);
    OthersKeptTrans(s, s1, WakeFirst(s1, n), t);
  }

  lemma LeaveQueueLock(s: State, n: LockName, t: TaskId)
    requires LockOk(s, n) && t in s.tasks && s.tasks[t].awaiting == OnLock(n)
    ensures var s' := LeaveQueue(s, n, t);
      && LockCore(s', n) && OnlyLock(s, s', n) && GetLock(s', n).locked == GetLock(s, n).locked
      && (s.tasks[t].fut == Woken ==>
            !GetLock(s', n).locked && forall w | w in GetLock(s', n).waiters :: FutOf(s', w) != Woken)
  {
    var s' := LeaveQueue(s, n, t);
    LeaveOnly(s, n, t);
    hide OnlyLock;
    var l, l' := GetLock(s, n), GetLock(s', n);
    WithoutFacts(l.waiters, t);
    HolderStays(s, s', n);
    hide HolderOk, Holds, Without;
    assert QueueOk(s', OnLock(n), l'.waiters);
    forall w | w in l'.waiters && FutOf(s', w) == Woken
      ensures w == l'.waiters[0] && !l'.locked
    {
      assert w == l.waiters[0];
    }
  }

  lemma LeaveOnly(s: State, n: LockName, t: TaskId)
    requires t in s.tasks && s.tasks[t].awaiting == OnLock(n)
    ensures OnlyLock(s, LeaveQueue(s, n, t), n)
  {
    hide Without;
  }

  lemma ResumeAcquireKeeps(s: State, n: LockName, t: TaskId)
    requires Inv(s) && t in s.tasks && s.tasks[t].awaiting == OnLock(n) && s.tasks[t].fut != Pending
    requires NameFor(s.tasks[t], n) == n
    ensures var s' := ResumeAcquire(s, n, t);
      && Inv(s') && OthersKept(s, s', t)
      && s'.value == s.value && s'.permitWaiters == s.permitWaiters
      && s'.tasks[t] == WithHold(s.tasks[t].(awaiting := Ready, mustCancel := false), n,
                                 !Interrupted(s.tasks[t]) || Holds(s.tasks[t], n))
  {
    assert LockOk(s, n);
    LeaveQueueLock(s, n, t);
    LeaveQueueFrame(s, n, t);
    var s1 := LeaveQueue(s, n, t);
    OnlyLockKeeps(s, s1, n);
    hide LeaveQueue, OnlyLock, PermitCore, LockCore, NoIdlePermit, OthersKept, Claimable;
    if !Interrupted(s.tasks[t]) {
      ClaimKeeps(s1, n, t);
      OthersKeptTrans(s, s1, Claim(s1, n, t), t);
    } else if !GetLock(s1, n).locked {
      WakeFirstKeeps(s1, n, t);
      OthersKeptTrans(s, s1, WakeFirst(s1, n), t);
    }
  }

  lemma LeaveQueueFrame(s: State, n: LockName, t: TaskId)
    requires t in s.tasks && s.tasks[t].awaiting == OnLock(n)
    ensures var s' := LeaveQueue(s, n, t);
      && OthersKept(s, s', t) && s'.value == s.value && s'.permitWaiters == s.permitWaiters
      && t in s'.tasks && s'.tasks[t] == s.tasks[t].(awaiting := Ready, mustCancel := false)
  {
    hide Without;
  }

  // ---------------------------------------------------------------------------------------------
  // Permit operations
  // ---------------------------------------------------------------------------------------------

  lemma WakeOneKeeps(s: State, t: TaskId)
    requires PermitCore(s) && (s.value > 1 ==> NoIdlePermit(s))
    requires t in s.tasks && s.tasks[t].awaiting == Ready
    ensures var s' := WakeOne(s);
      && PermitCore(s') && NoIdlePermit(s') && OthersKept(s, s', t) && s'.tasks[t] == s.tasks[t]
      && s'.locks == s.locks && OnlyPermits(s, s')
  {
    var s' := WakeOne(s);
    var i := FirstPending(s, s.permitWaiters);
    if s.value > 0 && i >= 0 {
      var w := s.permitWaiters[i];
      assert w in s.permitWaiters;
      assert s.tasks[w].awaiting == OnPermit && s.tasks[w].fut == Pending;
      assert PermitUsers(s') == PermitUsers(s) + {w};
      assert w !in PermitUsers(s);
    }
  }

  lemma WakeWaitersIsWakeOne(s: State)
    requires NoIdlePermit(WakeOne(s))
    ensures WakeWaiters(s) == WakeOne(s)
  {
    var i := FirstPending(s, s.permitWaiters);
    if s.value > 0 && i >= 0 {
      var s1 := WakeOne(s);
      var j := FirstPending(s1, s1.permitWaiters);
      assert j >= 0 ==> s1.permitWaiters[j] in s1.permitWaiters;
    }
  }

  /** The permit goes back to the counter, and its holder no longer uses it. */
  function GivenUp(s: State, t: TaskId): State
    requires t in s.tasks
  {
    s.(value := s.value + 1, tasks := s.tasks[t := s.tasks[t].(hasPermit := false)])
  }

  lemma OneUserLess(s: State, t: TaskId)
    requires t in s.tasks && s.tasks[t].awaiting == Ready && s.tasks[t].hasPermit
    ensures |PermitUsers(GivenUp(s, t))| == |PermitUsers(s)| - 1
  {
    assert PermitUsers(GivenUp(s, t)) == PermitUsers(s) - {t};
    assert t in PermitUsers(s);
  }

  lemma GivenUpKeeps(s: State, t: TaskId)
    requires PermitCore(s) && NoIdlePermit(s) && t in s.tasks && s.tasks[t].awaiting == Ready && s.tasks[t].hasPermit
    ensures var s1 := GivenUp(s, t); PermitCore(s1) && (s1.value > 1 ==> NoIdlePermit(s1)) && OnlyPermits(s, s1)
  {
    OneUserLess(s, t);
    hide PermitUsers;
  }

  lemma OnlyPermitsTrans(s: State, s1: State, s2: State)
    requires OnlyPermits(s, s1) && OnlyPermits(s1, s2)
    ensures OnlyPermits(s, s2)
  {
  }

  lemma ReleasePermitKeeps(s: State, t: TaskId)
    requires Inv(s) && t in s.tasks && s.tasks[t].awaiting == Ready && s.tasks[t].hasPermit
    ensures var s' := ReleasePermit(s, t);
      && Inv(s') && OthersKept(s, s', t) && s'.tasks[t] == s.tasks[t].(hasPermit := false) && s'.locks == s.locks
      && OnlyPermits(s, s')
  {
    var s1 := GivenUp(s, t);
    GivenUpKeeps(s, t);
    hide LockOk, PermitCore, NoIdlePermit, OnlyPermits;
    WakeOneKeeps(s1, t);
    hide WakeOne;
    OnlyPermitsTrans(s, s1, WakeOne(s1));
    OnlyPermitsKeeps(s, WakeOne(s1));
  }

  lemma TakePermitKeeps(s: State, t: TaskId)
    requires Inv(s) && t in s.tasks && s.tasks[t].awaiting == Ready && !s.tasks[t].hasPermit && s.value > 0
    ensures var s' := TakePermit(s, t);
      Inv(s') && OthersKept(s, s', t) && s'.tasks[t] == s.tasks[t].(hasPermit := true) && s'.locks == s.locks
  {
    var s' := TakePermit(s, t);
    assert PermitUsers(s') == PermitUsers(s) + {t};
    assert t !in PermitUsers(s);
    OnlyPermitsKeeps(s, s');
  }

  lemma AcquirePermitKeeps(s: State, t: TaskId)
    requires Inv(s) && t in s.tasks && s.tasks[t].awaiting == Ready && !s.tasks[t].hasPermit && s.value == 0
    ensures var s' := AcquirePermit(s, t);
      && Inv(s') && OthersKept(s, s', t) && s'.locks == s.locks && s'.value == 0
      && s'.tasks[t] == s.tasks[t].(awaiting := OnPermit, fut := Pending, mustCancel := false)
  {
    var s' := AcquirePermit(s, t);
    assert forall w :: w in s'.permitWaiters <==> w in s.permitWaiters || w == t;
    assert PermitUsers(s') == PermitUsers(s);
    assert PermitCore(s');
    OnlyPermitsKeeps(s, s');
  }

  lemma LeavePermitQueueKeeps(s: State, t: TaskId)
    requires Inv(s) && t in s.tasks && s.tasks[t].awaiting == OnPermit && s.tasks[t].fut != Pending
    ensures var s' := LeavePermitQueue(s, t);
      PermitCore(s') && (s'.value > 1 ==> NoIdlePermit(s')) && OnlyPermits(s, s')
  {
    var task := s.tasks[t];
    var s' := LeavePermitQueue(s, t);
    WithoutFacts(s.permitWaiters, t);
    LeavingUsers(s, t);
    hide PermitUsers, Without;
    assert QueueOk(s', OnPermit, s'.permitWaiters);
  }

  lemma LeavingUsers(s: State, t: TaskId)
    requires t in s.tasks && s.tasks[t].awaiting == OnPermit && !s.tasks[t].hasPermit
    ensures var task := s.tasks[t];
      |PermitUsers(LeavePermitQueue(s, t))| == |PermitUsers(s)| - (if task.fut == Woken && Interrupted(task) then 1 else 0)
  {
    var task, s' := s.tasks[t], LeavePermitQueue(s, t);
    hide Without;
    if task.fut == Woken && Interrupted(task) {
      assert PermitUsers(s') == PermitUsers(s) - {t};
      assert t in PermitUsers(s);
    } else {
      assert PermitUsers(s') == PermitUsers(s);
    }
  }

  lemma ResumePermitKeeps(s: State, t: TaskId)
    requires Inv(s) && t in s.tasks && s.tasks[t].awaiting == OnPermit && s.tasks[t].fut != Pending
    ensures var s' := ResumePermit(s, t);
      && Inv(s') && OthersKept(s, s', t) && s'.locks == s.locks && OnlyPermits(s, s')
      && s'.tasks[t] == s.tasks[t].(awaiting := Ready, mustCancel := false, hasPermit := !Interrupted(s.tasks[t]))
  {
    LeavePermitQueueKeeps(s, t);
    var s1 := LeavePermitQueue(s, t);
    hide LeavePermitQueue, LockOk, PermitCore, OnlyPermits, OthersKept, Interrupted;
    OnlyPermitsKeeps(s, s1);
    WakeOneKeeps(s1, t);
    WakeWaitersIsWakeOne(s1);
    hide NoIdlePermit, WakeOne, WakeWaiters;
    OnlyPermitsKeeps(s1, WakeOne(s1));
    OnlyPermitsTrans(s, s1, WakeOne(s1));
    OthersKeptTrans(s, s1, WakeOne(s1), t);
  }

  // ---------------------------------------------------------------------------------------------
  // The coroutines
  // ---------------------------------------------------------------------------------------------

  /** What a task holds at each suspension point, and while it runs. */
  predicate Shape(task: Task) {
    if task.done then task.awaiting == Ready && !task.hasRoute && !task.hasProfile && !task.hasPermit
    else
      match task.awaiting
      case OnLock(RouteLock(r)) =>
        r == task.route && task.kind != Probe && !task.hasRoute && !task.hasProfile && !task.hasPermit
      case OnLock(ProfileLock(p)) =>
        && p == task.profile && task.kind != Drainer
        && task.hasRoute == (task.kind != Probe) && !task.hasProfile && !task.hasPermit
      case OnPermit => task.kind == Inbound && task.hasRoute && !task.hasProfile && !task.hasPermit
      case Ready =>
        match task.kind
        case Inbound => task.hasRoute && task.hasProfile == task.hasPermit
        case Synthetic(_) => task.hasRoute && task.hasProfile && !task.hasPermit
        case Probe => !task.hasRoute && task.hasProfile && !task.hasPermit
        case Drainer => false
  }

  ghost predicate Good(s: State) {
    Inv(s) && forall t | t in s.tasks :: Shape(s.tasks[t])
  }

  /** A stretch of `t` that starts in a state with the invariant and ends with `t` suspended, running or done. */
  ghost predicate Stretch(s: State, s': State, t: TaskId) {
    && Inv(s') && OthersKept(s, s', t) && t in s.tasks && t in s'.tasks
    && Shape(s'.tasks[t]) && SameIdentity(s.tasks[t], s'.tasks[t])
  }

  predicate SameIdentity(a: Task, b: Task) {
    a.kind == b.kind && a.route == b.route && a.profile == b.profile
  }

  lemma OthersKeptTrans(s: State, s1: State, s2: State, t: TaskId)
    requires OthersKept(s, s1, t) && OthersKept(s1, s2, t)
    ensures OthersKept(s, s2, t)
  {
  }

  lemma ReleaseIfHeldKeeps(s: State, n: LockName, t: TaskId)
    requires Inv(s) && t in s.tasks && s.tasks[t].awaiting == Ready && NameFor(s.tasks[t], n) == n
    ensures var s' := ReleaseIfHeld(s, n, t);
      Inv(s') && OthersKept(s, s', t) && s'.tasks[t] == WithHold(s.tasks[t], n, false)
  {
    if Holds(s.tasks[t], n) {
      ReleaseKeeps(s, n, t);
    }
  }

  lemma FinishedKeeps(s: State, t: TaskId)
    requires Inv(s) && t in s.tasks && s.tasks[t].awaiting == Ready
    ensures Inv(Finished(s, t)) && OthersKept(s, Finished(s, t), t)
  {
    OnlyPermitsKeeps(s, Finished(s, t));
    SamePermitsKeeps(s, Finished(s, t));
  }

  lemma UnwindKeeps(s: State, t: TaskId)
    requires Inv(s) && t in s.tasks && s.tasks[t].awaiting == Ready
    ensures Stretch(s, Unwind(s, t), t) && Unwind(s, t).tasks[t].done
  {
    var task := s.tasks[t];
    var s1 := if task.hasPermit then ReleasePermit(s, t) else s;
    if task.hasPermit {
      ReleasePermitKeeps(s, t);
    }
    var s2 := ReleaseIfHeld(s1, ProfileLock(task.profile), t);
    ReleaseIfHeldKeeps(s1, ProfileLock(task.profile), t);
    OthersKeptTrans(s, s1, s2, t);
    UnwindTail(s, s2, t);
  }

  lemma UnwindTail(s: State, s2: State, t: TaskId)
    requires Inv(s2) && OthersKept(s, s2, t) && t in s.tasks && s2.tasks[t].awaiting == Ready
    requires !s2.tasks[t].hasPermit && !s2.tasks[t].hasProfile && SameIdentity(s.tasks[t], s2.tasks[t])
    ensures var s3 := ReleaseIfHeld(s2, RouteLock(s2.tasks[t].route), t);
      Stretch(s, Finished(s3, t), t)
  {
    var n := RouteLock(s2.tasks[t].route);
    var s3 := ReleaseIfHeld(s2, n, t);
    ReleaseIfHeldKeeps(s2, n, t);
    FinishedKeeps(s3, t);
    OthersKeptTrans(s, s2, s3, t);
    OthersKeptTrans(s, s3, Finished(s3, t), t);
  }

  lemma ClaimableKeeps(s: State, n: LockName, t: TaskId)
    requires Inv(s) && t in s.tasks && s.tasks[t].awaiting == Ready && NameFor(s.tasks[t], n) == n
    requires Claimable(s, n)
    ensures Inv(Claim(s, n, t)) && OthersKept(s, Claim(s, n, t), t) && !Holds(s.tasks[t], n)
  {
    assert LockOk(s, n);
    ClaimKeeps(s, n, t);
  }

  lemma AfterProfileKeeps(s: State, t: TaskId)
    requires Inv(s) && t in s.tasks && s.tasks[t].awaiting == Ready && s.tasks[t].hasProfile && !s.tasks[t].hasPermit
    requires !s.tasks[t].done && s.tasks[t].kind != Drainer && s.tasks[t].hasRoute == (s.tasks[t].kind != Probe)
    ensures Stretch(s, AfterProfile(s, t), t)
  {
    if s.tasks[t].kind != Inbound {
    } else if s.value > 0 {
      TakePermitKeeps(s, t);
    } else {
      var n := ProfileLock(s.tasks[t].profile);
      ReleaseKeeps(s, n, t);
      var s1 := Release(s, n, t);
      AcquirePermitKeeps(s1, t);
      OthersKeptTrans(s, s1, AcquirePermit(s1, t), t);
    }
  }

  lemma EnterProfileKeeps(s: State, t: TaskId)
    requires Inv(s) && t in s.tasks && s.tasks[t].awaiting == Ready && !s.tasks[t].hasProfile && !s.tasks[t].hasPermit
    requires !s.tasks[t].done && s.tasks[t].kind != Drainer && s.tasks[t].hasRoute == (s.tasks[t].kind != Probe)
    ensures Stretch(s, EnterProfile(s, t), t)
  {
    var n := ProfileLock(s.tasks[t].profile);
    var noWait := s.tasks[t].kind == Probe || s.tasks[t].kind == Synthetic(true);
    if noWait && GetLock(s, n).locked {
      UnwindKeeps(s, t);
    } else if Claimable(s, n) {
      ClaimableKeeps(s, n, t);
      var s1 := Claim(s, n, t);
      AfterProfileKeeps(s1, t);
      OthersKeptTrans(s, s1, AfterProfile(s1, t), t);
    } else {
      EnqueueKeeps(s, n, t);
    }
  }

  lemma AfterRouteKeeps(s: State, t: TaskId, skip: bool)
    requires Inv(s) && t in s.tasks && s.tasks[t].awaiting == Ready && s.tasks[t].hasRoute
    requires !s.tasks[t].hasProfile && !s.tasks[t].hasPermit && !s.tasks[t].done && s.tasks[t].kind != Probe
    ensures Stretch(s, AfterRoute(s, t, skip), t)
  {
    if s.tasks[t].kind == Drainer {
      UnwindKeeps(s, t);
    } else if s.tasks[t].kind == Inbound && skip {
    } else {
      EnterProfileKeeps(s, t);
    }
  }

  lemma EnterRouteKeeps(s: State, t: TaskId, skip: bool)
    requires Inv(s) && t in s.tasks && s.tasks[t].awaiting == Ready && !s.tasks[t].hasRoute
    requires !s.tasks[t].hasProfile && !s.tasks[t].hasPermit && !s.tasks[t].done && s.tasks[t].kind != Probe
    ensures Stretch(s, EnterRoute(s, t, skip), t)
  {
    var n := RouteLock(s.tasks[t].route);
    if s.tasks[t].kind == Synthetic(true) && GetLock(s, n).locked {
      UnwindKeeps(s, t);
    } else if Claimable(s, n) {
      ClaimableKeeps(s, n, t);
      var s1 := Claim(s, n, t);
      AfterRouteKeeps(s1, t, skip);
      OthersKeptTrans(s, s1, AfterRoute(s1, t, skip), t);
    } else {
      EnqueueKeeps(s, n, t);
    }
  }

  lemma ReenterProfileKeeps(s: State, t: TaskId)
    requires Inv(s) && t in s.tasks && s.tasks[t].awaiting == Ready && s.tasks[t].kind == Inbound
    requires s.tasks[t].hasRoute && !s.tasks[t].hasProfile && s.tasks[t].hasPermit && !s.tasks[t].done
    ensures Stretch(s, ReenterProfile(s, t), t)
  {
    var n := ProfileLock(s.tasks[t].profile);
    if Claimable(s, n) {
      ClaimableKeeps(s, n, t);
    } else {
      ReleasePermitKeeps(s, t);
      var s1 := ReleasePermit(s, t);
      if Claimable(s1, n) {
        ClaimableKeeps(s1, n, t);
        var s2 := Claim(s1, n, t);
        AfterProfileKeeps(s2, t);
        OthersKeptTrans(s, s1, s2, t);
        OthersKeptTrans(s, s2, AfterProfile(s2, t), t);
      } else {
        EnqueueKeeps(s1, n, t);
        OthersKeptTrans(s, s1, Enqueue(s1, n, t), t);
      }
    }
  }

  lemma ResumeKeeps(s: State, t: TaskId, skip: bool)
    requires Good(s) && Suspended(s, t) && s.tasks[t].fut != Pending
    ensures Stretch(s, ResumeTask(s, t, skip), t)
  {
    var task := s.tasks[t];
    assert Shape(task);
    match task.awaiting
    case OnLock(n) =>
      ResumeAcquireKeeps(s, n, t);
      var s1 := ResumeAcquire(s, n, t);
      if Interrupted(task) {
        UnwindKeeps(s1, t);
      } else if n.RouteLock? {
        AfterRouteKeeps(s1, t, skip);
      } else {
        AfterProfileKeeps(s1, t);
      }
      OthersKeptTrans(s, s1, ResumeTask(s, t, skip), t);
    case OnPermit =>
      ResumePermitKeeps(s, t);
      var s1 := ResumePermit(s, t);
      if Interrupted(task) {
        UnwindKeeps(s1, t);
      } else {
        ReenterProfileKeeps(s1, t);
      }
      OthersKeptTrans(s, s1, ResumeTask(s, t, skip), t);
  }

  lemma CancelKeeps(s: State, t: TaskId)
    requires Good(s) && Suspended(s, t)
    ensures Stretch(s, CancelTask(s, t), t)
  {
    var s' := CancelTask(s, t);
    assert Shape(s.tasks[t]);
    assert PermitUsers(s') == PermitUsers(s);
    assert PermitCore(s');
    forall n ensures LockOk(s', n) {
      CancelledLock(s, n, t);
    }
    hide LockOk, PermitCore;
  }

  lemma CancelledLock(s: State, n: LockName, t: TaskId)
    requires LockOk(s, n) && t in s.tasks
    ensures LockOk(CancelTask(s, t), n)
  {
    HolderStays(s, CancelTask(s, t), n);
    hide HolderOk, Holds;
  }

  lemma StartKeeps(s: State, t: TaskId, kind: Kind, route: nat, profile: nat)
    requires Good(s) && t !in s.tasks
    ensures var s' := StartTask(s, t, kind, route, profile);
      Inv(s') && forall u | u in s.tasks :: u in s'.tasks && s'.tasks[u] == s.tasks[u]
  {
    var s' := StartTask(s, t, kind, route, profile);
    assert PermitUsers(s') == PermitUsers(s);
    assert PermitCore(s');
    forall n ensures LockOk(s', n) {
      assert LockOk(s, n);
      assert HolderOk(s', n) by {
        if GetLock(s, n).locked {
          var h :| HolderIs(s, n, h);
          assert HolderIs(s', n, h);
        }
      }
    }
  }

  lemma StretchIsGood(s: State, s': State, t: TaskId)
    requires (forall u | u in s.tasks && u != t :: Shape(s.tasks[u])) && Stretch(s, s', t)
    ensures Good(s')
  {
  }

  lemma StepKeepsGood(s: State, e: Event)
    requires Good(s) && Enabled(s, e)
    ensures Good(Step(s, e)) && Step(s, e).max == s.max
  {
    match e
    case Start(t, kind, route, profile, skip) =>
      StartKeeps(s, t, kind, route, profile);
      var s1 := StartTask(s, t, kind, route, profile);
      if kind == Probe {
        EnterProfileKeeps(s1, t);
      } else {
        EnterRouteKeeps(s1, t, skip);
      }
      StretchIsGood(s1, Step(s, e), t);
    case Resume(t, skip) =>
      ResumeKeeps(s, t, skip);
      StretchIsGood(s, Step(s, e), t);
    case Finish(t) =>
      UnwindKeeps(s, t);
      StretchIsGood(s, Step(s, e), t);
    case Cancel(t) =>
      CancelKeeps(s, t);
      StretchIsGood(s, Step(s, e), t);
  }

  // ---------------------------------------------------------------------------------------------
  // Every run
  // ---------------------------------------------------------------------------------------------

  lemma InitIsGood(max: nat)
    ensures Good(Init(max))
  {
    assert PermitUsers(Init(max)) == {};
    forall n ensures LockOk(Init(max), n) {
    }
  }

  lemma {:induction false} RunIsGood(s: State, es: seq<Event>)
    requires Good(s) && ValidRun(s, es)
    ensures Good(Run(s, es)) && Run(s, es).max == s.max
    decreases |es|
  {
    if es != [] {
      StepKeepsGood(s, es[0]);
      RunIsGood(Step(s, es[0]), es[1..]);
    }
  }
}
