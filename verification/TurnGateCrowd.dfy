/** How the turn gate gets into the spin of `TurnGateSpin`, and one round of it.

    A permit won by a capacity wait is given back unless the profile lock can be claimed at once. Three turns of one
    profile can therefore pass one permit around: one is woken on the profile lock, one holds the handed-over permit,
    and one waits for capacity. */
module TurnGateCrowd {
  import opened TurnGate
  import opened TurnGateInvariant
  import opened TurnGateTheorems
  import opened TurnGateProgress

  // ---------------------------------------------------------------------------------------------
  // The spin
  // ---------------------------------------------------------------------------------------------

  /** An inbound turn that holds its route lock and waits inside the gate of profile `p`. */
  predicate GateWaiter(s: State, t: TaskId, p: nat, a: Await, f: Fut) {
    && t in s.tasks && var k := s.tasks[t];
    && k.kind == Inbound && k.profile == p && k.hasRoute && !k.hasProfile && !k.hasPermit && !k.done
    && k.awaiting == a && k.fut == f && !k.mustCancel
  }

  /** `z` is woken on the free profile lock, `x` has been handed the only loose permit, `y` waits for one. */
  predicate Spinning(s: State, p: nat, x: TaskId, y: TaskId, z: TaskId) {
    && x != y && y != z && x != z
    && GetLock(s, ProfileLock(p)) == Lock(false, [z]) && s.value == 0 && s.permitWaiters == [x, y]
    && GateWaiter(s, x, p, OnPermit, Woken)
    && GateWaiter(s, y, p, OnPermit, Pending)
    && GateWaiter(s, z, p, OnLock(ProfileLock(p)), Woken)
  }

  /** Only the three spinning turns differ, and none of them runs. */
  ghost predicate NobodyRan(s: State, s': State, x: TaskId, y: TaskId, z: TaskId) {
    && s'.tasks.Keys == s.tasks.Keys && s'.max == s.max
    && (forall t | t in s.tasks && t != x && t != y && t != z :: s'.tasks[t] == s.tasks[t])
    && forall t | t in s.tasks :: s'.tasks[t].hasPermit == s.tasks[t].hasPermit
                                  && s'.tasks[t].hasProfile == s.tasks[t].hasProfile
  }

  /** The first half: `x` finds the profile lock spoken for, gives its permit back, and `y` gets it. */
  lemma PassOn(s: State, p: nat, x: TaskId, y: TaskId, z: TaskId)
    requires Spinning(s, p, x, y, z)
    ensures Enabled(s, Resume(x, false))
    ensures var s' := Step(s, Resume(x, false));
      && GetLock(s', ProfileLock(p)) == Lock(false, [z, x]) && s'.value == 0 && s'.permitWaiters == [y]
      && GateWaiter(s', x, p, OnLock(ProfileLock(p)), Pending)
      && GateWaiter(s', y, p, OnPermit, Woken)
      && GateWaiter(s', z, p, OnLock(ProfileLock(p)), Woken)
      && NobodyRan(s, s', x, y, z)
  {
    var n := ProfileLock(p);
    assert Without([x, y], x) == [y];
    var s0 := LeavePermitQueue(s, x);
    assert s0.value == 0 && s0.permitWaiters == [y];
    var s1 := ResumePermit(s, x);
    assert s1 == s0;
    assert z in GetLock(s1, n).waiters && FutOf(s1, z) == Woken;
    assert !Claimable(s1, n);
    var r := s1.(value := s1.value + 1, tasks := s1.tasks[x := s1.tasks[x].(hasPermit := false)]);
    assert r.permitWaiters[0] == y && FutOf(r, y) == Pending;
    assert FirstPending(r, r.permitWaiters) == 0;
    var s2 := ReleasePermit(s1, x);
    assert z in GetLock(s2, n).waiters && FutOf(s2, z) == Woken;
    assert !Claimable(s2, n);
    assert Step(s, Resume(x, false)) == Enqueue(s2, n, x);
  }

  /** The second half: `z` gets the profile lock, finds no permit, and wakes `x` on its way out. */
  lemma PassBack(s: State, p: nat, x: TaskId, y: TaskId, z: TaskId)
    requires x != y && y != z && x != z
    requires GetLock(s, ProfileLock(p)) == Lock(false, [z, x]) && s.value == 0 && s.permitWaiters == [y]
    requires GateWaiter(s, x, p, OnLock(ProfileLock(p)), Pending)
    requires GateWaiter(s, y, p, OnPermit, Woken)
    requires GateWaiter(s, z, p, OnLock(ProfileLock(p)), Woken)
    ensures Enabled(s, Resume(z, false))
    ensures var s' := Step(s, Resume(z, false)); Spinning(s', p, y, z, x) && NobodyRan(s, s', x, y, z)
  {
    var n := ProfileLock(p);
    assert Without([z, x], z) == [x];
    var s1 := ResumeAcquire(s, n, z);
    assert GetLock(s1, n) == Lock(true, [x]);
    var s2 := Release(s1, n, z);
    assert GetLock(s2, n) == Lock(false, [x]) && FutOf(s2, x) == Woken;
    assert s2.value == 0;
    assert Step(s, Resume(z, false)) == AcquirePermit(s2, z);
    assert [y] + [z] == [y, z];
  }

  lemma RunCons(s: State, e: Event, es: seq<Event>)
    requires Enabled(s, e) && ValidRun(Step(s, e), es)
    ensures ValidRun(s, [e] + es) && Run(s, [e] + es) == Run(Step(s, e), es)
  {
    assert ([e] + es)[1..] == es;
  }

  lemma {:induction false} RunAppend(s: State, es: seq<Event>, fs: seq<Event>)
    requires ValidRun(s, es) && ValidRun(Run(s, es), fs)
    ensures ValidRun(s, es + fs) && Run(s, es + fs) == Run(Run(s, es), fs)
    decreases |es|
  {
    hide Step, Enabled;
    if es == [] {
      assert es + fs == fs;
    } else {
      var rest := es[1..] + fs;
      RunAppend(Step(s, es[0]), es[1..], fs);
      hide Run, ValidRun;
      assert es + fs == [es[0]] + rest;
      RunCons(s, es[0], rest);
    }
  }

  lemma NobodyRanTwice(s: State, s1: State, s2: State, x: TaskId, y: TaskId, z: TaskId)
    requires NobodyRan(s, s1, x, y, z) && NobodyRan(s1, s2, y, z, x)
    ensures NobodyRan(s, s2, x, y, z)
  {
  }

  /** One round: two resumptions, after which the same three turns have changed places. */
  lemma SpinRound(s: State, p: nat, x: TaskId, y: TaskId, z: TaskId)
    requires Spinning(s, p, x, y, z)
    ensures var e, f := Resume(x, false), Resume(z, false);
      && Enabled(s, e) && Enabled(Step(s, e), f)
      && !Active(Step(s, e), x) && !Active(Step(Step(s, e), f), z)
      && Spinning(Step(Step(s, e), f), p, y, z, x) && NobodyRan(s, Step(Step(s, e), f), x, y, z)
  {
    PassOn(s, p, x, y, z);
    PassBack(Step(s, Resume(x, false)), p, x, y, z);
  }

  // ---------------------------------------------------------------------------------------------
  // In the order of the event loop
  // ---------------------------------------------------------------------------------------------

  predicate Runnable(s: State, t: TaskId) {
    Suspended(s, t) && s.tasks[t].fut != Pending
  }

  /** `ready` lists the tasks that wait to be resumed. */
  ghost predicate Lines(s: State, ready: seq<TaskId>) {
    Distinct(ready) && forall t :: t in ready <==> Runnable(s, t)
  }

  /** One task leaves the ready queue and another one joins it. */
  lemma OneForOne(s: State, s': State, a: TaskId, b: TaskId, c: TaskId)
    requires Lines(s, [a, b]) && !Runnable(s', a) && Runnable(s', b) && Runnable(s', c) && b != c
    requires s'.tasks.Keys == s.tasks.Keys && forall t | t in s.tasks && t != a && t != b && t != c :: s'.tasks[t] == s.tasks[t]
    ensures Lines(s', [b, c])
  {
    forall t ensures t in [b, c] <==> Runnable(s', t) {
      assert t in [a, b] <==> Runnable(s, t);
    }
  }

  lemma RoundLines(s: State, p: nat, x: TaskId, y: TaskId, z: TaskId)
    requires Spinning(s, p, x, y, z) && Lines(s, [x, z])
    ensures var s1 := Step(s, Resume(x, false));
      Lines(s1, [z, y]) && Lines(Step(s1, Resume(z, false)), [y, x])
  {
    hide Lines, Step;
    PassOn(s, p, x, y, z);
    var s1 := Step(s, Resume(x, false));
    OneForOne(s, s1, x, z, y);
    PassBack(s1, p, x, y, z);
    OneForOne(s1, Step(s1, Resume(z, false)), z, y, x);
  }

  // ---------------------------------------------------------------------------------------------
  // How the router gets there
  // ---------------------------------------------------------------------------------------------

  predicate Free(s: State, n: LockName) {
    GetLock(s, n) == Lock(false, [])
  }

  /** Everything but task `t`, its route lock and lock `n` is as before. */
  ghost predicate Untouched(s: State, s': State, t: TaskId, r: nat, n: LockName) {
    && s'.max == s.max
    && (forall u | u in s.tasks && u != t :: u in s'.tasks && s'.tasks[u] == s.tasks[u])
    && (forall u | u in s'.tasks && u != t :: u in s.tasks)
    && forall m | m != n && m != RouteLock(r) :: GetLock(s', m) == GetLock(s, m)
  }

  /** Task `t` moves and does not wait to be resumed, and nobody else did. */
  lemma NobodyLines(s: State, s': State, t: TaskId, r: nat, n: LockName)
    requires Lines(s, []) || Lines(s, [t])
    requires Untouched(s, s', t, r, n) && !Runnable(s', t)
    ensures Lines(s', [])
  {
    forall u ensures !Runnable(s', u) {
      assert Lines(s, []) ==> (u in [] <==> Runnable(s, u));
      assert Lines(s, [t]) ==> (u in [t] <==> Runnable(s, u));
    }
  }

  /** Two tasks, or one, are woken while nobody waited to be resumed: `w` by the permit, which an ending turn gives
      back first, then `d` by the lock. */
  lemma WokenLine(s: State, s': State, t: TaskId, w: TaskId, d: TaskId)
    requires Lines(s, []) && s'.tasks.Keys == s.tasks.Keys && !Runnable(s', t)
    requires Runnable(s', w) && Runnable(s', d)
    requires forall u | u in s.tasks && u != t && u != w && u != d :: s'.tasks[u] == s.tasks[u]
    ensures Lines(s', if w == d then [w] else [w, d])
  {
    forall u ensures u == w || u == d <==> Runnable(s', u) {
      assert u in [] <==> Runnable(s, u);
    }
  }

  predicate Runs(s: State, t: TaskId, r: nat, p: nat) {
    t in s.tasks && s.tasks[t] == Task(Inbound, r, p, Ready, Pending, false, true, true, true, false)
  }

  lemma StartRuns(s: State, t: TaskId, r: nat, p: nat)
    requires t !in s.tasks && Free(s, RouteLock(r)) && Free(s, ProfileLock(p)) && s.value > 0
    ensures var s' := Step(s, Start(t, Inbound, r, p, false));
      && Runs(s', t, r, p) && s'.value == s.value - 1 && s'.permitWaiters == s.permitWaiters
      && GetLock(s', ProfileLock(p)) == Lock(true, []) && GetLock(s', RouteLock(r)) == Lock(true, [])
      && Untouched(s, s', t, r, ProfileLock(p))
  {
    var s1 := StartTask(s, t, Inbound, r, p);
    assert Claimable(s1, RouteLock(r));
    var s2 := Claim(s1, RouteLock(r), t);
    assert Claimable(s2, ProfileLock(p));
    var s3 := Claim(s2, ProfileLock(p), t);
    assert Step(s, Start(t, Inbound, r, p, false)) == TakePermit(s3, t);
  }

  lemma StartWaitsForCapacity(s: State, t: TaskId, r: nat, p: nat)
    requires t !in s.tasks && Free(s, RouteLock(r)) && Free(s, ProfileLock(p)) && s.value == 0
    ensures var s' := Step(s, Start(t, Inbound, r, p, false));
      && GateWaiter(s', t, p, OnPermit, Pending) && s'.value == 0 && s'.permitWaiters == s.permitWaiters + [t]
      && Free(s', ProfileLock(p)) && s'.tasks[t].route == r
      && Untouched(s, s', t, r, ProfileLock(p))
  {
    var s1 := StartTask(s, t, Inbound, r, p);
    assert Claimable(s1, RouteLock(r));
    var s2 := Claim(s1, RouteLock(r), t);
    assert Claimable(s2, ProfileLock(p));
    var s3 := Claim(s2, ProfileLock(p), t);
    var s4 := Release(s3, ProfileLock(p), t);
    assert Step(s, Start(t, Inbound, r, p, false)) == AcquirePermit(s4, t);
  }

  lemma StartWaitsForProfile(s: State, t: TaskId, r: nat, p: nat)
    requires t !in s.tasks && Free(s, RouteLock(r)) && GetLock(s, ProfileLock(p)) == Lock(true, [])
    ensures var s' := Step(s, Start(t, Inbound, r, p, false));
      && GateWaiter(s', t, p, OnLock(ProfileLock(p)), Pending) && s'.value == s.value && s'.permitWaiters == s.permitWaiters
      && GetLock(s', ProfileLock(p)) == Lock(true, [t])
      && Untouched(s, s', t, r, ProfileLock(p))
  {
    var s1 := StartTask(s, t, Inbound, r, p);
    assert Claimable(s1, RouteLock(r));
    var s2 := Claim(s1, RouteLock(r), t);
    assert !Claimable(s2, ProfileLock(p));
    assert Step(s, Start(t, Inbound, r, p, false)) == Enqueue(s2, ProfileLock(p), t);
  }

  lemma HandedPermitRuns(s: State, t: TaskId, r: nat, p: nat, rest: seq<TaskId>)
    requires GateWaiter(s, t, p, OnPermit, Woken) && s.tasks[t].route == r
    requires s.permitWaiters == [t] + rest && t !in rest && s.value == 0 && Free(s, ProfileLock(p))
    ensures Enabled(s, Resume(t, false))
    ensures var s' := Step(s, Resume(t, false));
      && t in s'.tasks && s'.tasks[t] == s.tasks[t].(awaiting := Ready, hasProfile := true, hasPermit := true)
      && s'.value == 0 && s'.permitWaiters == rest && GetLock(s', ProfileLock(p)) == Lock(true, [])
      && Untouched(s, s', t, r, ProfileLock(p))
  {
    assert Without(s.permitWaiters, t) == rest;
    var s1 := LeavePermitQueue(s, t);
    assert ResumePermit(s, t) == s1;
    assert Claimable(s1, ProfileLock(p));
    assert Step(s, Resume(t, false)) == Claim(s1, ProfileLock(p), t);
  }

  /** The first pending waiter gets the released permit. */
  lemma PermitGoesOver(s: State, t: TaskId, w: TaskId, rest: seq<TaskId>)
    requires t in s.tasks && s.permitWaiters == [w] + rest && s.value == 0
    requires w != t && w in s.tasks && s.tasks[w].fut == Pending
    ensures var s' := ReleasePermit(s, t);
      && s'.tasks.Keys == s.tasks.Keys && s'.value == 0 && s'.permitWaiters == s.permitWaiters && s'.max == s.max
      && s'.locks == s.locks
      && s'.tasks[t] == s.tasks[t].(hasPermit := false) && s'.tasks[w] == s.tasks[w].(fut := Woken)
      && forall u | u in s.tasks && u != t && u != w :: s'.tasks[u] == s.tasks[u]
  {
    var s0 := s.(value := s.value + 1, tasks := s.tasks[t := s.tasks[t].(hasPermit := false)]);
    assert s0.permitWaiters[0] == w;
    assert FirstPending(s0, s0.permitWaiters) == 0;
  }

  /** A released lock with at most one waiter, which is not cancelled, is spoken for by it. */
  lemma LockGoesOver(s: State, n: LockName, t: TaskId)
    requires t in s.tasks && |GetLock(s, n).waiters| <= 1
    requires forall d | d in GetLock(s, n).waiters :: d in s.tasks && d != t && s.tasks[d].fut == Pending
    ensures var s', ws := Release(s, n, t), GetLock(s, n).waiters;
      && s'.tasks.Keys == s.tasks.Keys && s'.value == s.value && s'.permitWaiters == s.permitWaiters && s'.max == s.max
      && GetLock(s', n) == Lock(false, ws) && s'.tasks[t] == WithHold(s.tasks[t], n, false)
      && (forall d | d in ws :: s'.tasks[d] == s.tasks[d].(fut := Woken))
      && (forall u | u in s.tasks && u != t && u !in ws :: s'.tasks[u] == s.tasks[u])
      && forall m | m != n :: GetLock(s', m) == GetLock(s, m)
  {
    var ws := GetLock(s, n).waiters;
    assert |ws| > 0 ==> ws[0] in ws;
  }

  /** What a turn of profile `p` leaves behind when it gives up its permit and its profile lock. */
  ghost predicate PermitAndProfilePassed(s: State, s': State, t: TaskId, p: nat, w: TaskId) {
    var ws := GetLock(s, ProfileLock(p)).waiters;
    && t in s.tasks && w in s.tasks && (forall d | d in ws :: d in s.tasks)
    && s'.tasks.Keys == s.tasks.Keys && s'.value == 0 && s'.permitWaiters == s.permitWaiters && s'.max == s.max
    && s'.tasks[t] == s.tasks[t].(hasPermit := false, hasProfile := false)
    && s'.tasks[w] == s.tasks[w].(fut := Woken)
    && (forall d | d in ws :: s'.tasks[d] == s.tasks[d].(fut := Woken))
    && (forall u | u in s.tasks && u != t && u != w && u !in ws :: s'.tasks[u] == s.tasks[u])
    && GetLock(s', ProfileLock(p)) == Lock(false, ws)
    && forall m | m != ProfileLock(p) :: GetLock(s', m) == GetLock(s, m)
  }

  lemma ProfileGoesOver(s: State, t: TaskId, p: nat, w: TaskId, rest: seq<TaskId>)
    requires t in s.tasks && s.permitWaiters == [w] + rest && s.value == 0
    requires w != t && w in s.tasks && s.tasks[w].fut == Pending
    requires var ws := GetLock(s, ProfileLock(p)).waiters;
      |ws| <= 1 && forall d | d in ws :: d in s.tasks && d != t && d != w && s.tasks[d].fut == Pending
    ensures PermitAndProfilePassed(s, Release(ReleasePermit(s, t), ProfileLock(p), t), t, p, w)
  {
    PermitGoesOver(s, t, w, rest);
    hide ReleasePermit;
    var s1 := ReleasePermit(s, t);
    assert forall m :: GetLock(s1, m) == GetLock(s, m);
    hide GetLock, Release;
    LockGoesOver(s1, ProfileLock(p), t);
  }

  /** A running turn ends: the first capacity waiter gets its permit, the first profile waiter is woken. */
  lemma FinishHandsOver(s: State, t: TaskId, r: nat, p: nat, w: TaskId, rest: seq<TaskId>)
    requires t in s.tasks && var k := s.tasks[t];
      k.kind == Inbound && k.route == r && k.profile == p && k.awaiting == Ready && k.hasRoute && k.hasProfile && k.hasPermit && !k.done
    requires s.permitWaiters == [w] + rest && s.value == 0 && w != t && w in s.tasks && s.tasks[w].fut == Pending
    requires GetLock(s, RouteLock(r)) == Lock(true, [])
    requires |GetLock(s, ProfileLock(p)).waiters| <= 1
    requires forall d | d in GetLock(s, ProfileLock(p)).waiters :: d in s.tasks && d != t && d != w && s.tasks[d].fut == Pending
    ensures Enabled(s, Finish(t))
    ensures var s' := Step(s, Finish(t));
      && s'.tasks.Keys == s.tasks.Keys && s'.value == 0 && s'.permitWaiters == s.permitWaiters && s'.max == s.max
      && s'.tasks[w] == s.tasks[w].(fut := Woken)
      && s'.tasks[t].done && s'.tasks[t].awaiting == Ready && GetLock(s', ProfileLock(p)) == Lock(false, GetLock(s, ProfileLock(p)).waiters)
      && (forall d | d in GetLock(s, ProfileLock(p)).waiters :: s'.tasks[d] == s.tasks[d].(fut := Woken))
      && (forall u | u in s.tasks && u != t && u != w && u !in GetLock(s, ProfileLock(p)).waiters :: s'.tasks[u] == s.tasks[u])
      && forall m | m != ProfileLock(p) && m != RouteLock(r) :: GetLock(s', m) == GetLock(s, m)
  {
    ProfileGoesOver(s, t, p, w, rest);
    var s1 := ReleasePermit(s, t);
    assert s1.tasks[t].hasProfile && s1.tasks[t].profile == p by { PermitGoesOver(s, t, w, rest); }
    var s2 := Release(s1, ProfileLock(p), t);
    hide ReleasePermit;
    var s3 := Release(s2, RouteLock(r), t);
    LockGoesOver(s2, RouteLock(r), t);
    assert Step(s, Finish(t)) == Finished(s3, t) by { hide GetLock, Release; }
    hide GetLock, Release;
  }

  /** Turn `i` of route `i` and profile `p` waits for capacity. */
  predicate ShortOfCapacity(s: State, i: nat, p: nat) {
    GateWaiter(s, i, p, OnPermit, Pending) && s.tasks[i].route == i && GetLock(s, RouteLock(i)) == Lock(true, [])
  }

  predicate Unused(s: State, i: nat) {
    i !in s.tasks && Free(s, RouteLock(i))
  }

  /** Turn `b` holds the last permit on a profile of its own, the turns `ws` of profile `p` wait for capacity,
      and the ids and routes from `b + |ws| + 1` on are unused. */
  ghost predicate Crowd(s: State, b: nat, p: nat, ws: seq<TaskId>) {
    && p == b + 1
    && Runs(s, b, b, b) && GetLock(s, RouteLock(b)) == Lock(true, []) && GetLock(s, ProfileLock(b)) == Lock(true, [])
    && s.value == 0 && s.permitWaiters == ws && Free(s, ProfileLock(p)) && Lines(s, [])
    && (forall w | w in ws :: b < w <= b + |ws| && ShortOfCapacity(s, w, p))
    && forall i | b + |ws| < i :: Unused(s, i)
  }

  lemma CrowdGrows(s: State, b: nat, p: nat, ws: seq<TaskId>)
    requires Crowd(s, b, p, ws)
    ensures var t := b + |ws| + 1; var e := Start(t, Inbound, t, p, false);
      Enabled(s, e) && Crowd(Step(s, e), b, p, ws + [t])
  {
    hide Step;
    var t := b + |ws| + 1;
    var e := Start(t, Inbound, t, p, false);
    assert Unused(s, t);
    StartWaitsForCapacity(s, t, t, p);
    RouteTaken(s, t, t, p);
    var s' := Step(s, e);
    NobodyLines(s, s', t, t, ProfileLock(p));
    hide Lines;
    forall w | w in ws + [t] ensures b < w <= b + |ws| + 1 && ShortOfCapacity(s', w, p) {
      assert w in ws ==> ShortOfCapacity(s, w, p);
    }
    forall i | t < i ensures Unused(s', i) {
      assert Unused(s, i);
    }
  }

  /** A turn of another profile takes the last permit; three turns of profile `b + 1` wait for capacity. */
  lemma ThreeWait(s: State, b: nat) returns (es: seq<Event>)
    requires s.value == 1 && s.permitWaiters == [] && Lines(s, [])
    requires forall i | b <= i :: Unused(s, i) && Free(s, ProfileLock(i))
    ensures ValidRun(s, es) && Crowd(Run(s, es), b, b + 1, [b + 1, b + 2, b + 3]) && OwnRoutes(es)
  {
    hide Step, Enabled, Lines;
    var p := b + 1;
    var e0, e1 := Start(b, Inbound, b, b, false), Start(b + 1, Inbound, b + 1, p, false);
    var e2, e3 := Start(b + 2, Inbound, b + 2, p, false), Start(b + 3, Inbound, b + 3, p, false);
    assert Unused(s, b);
    FirstRuns(s, b);
    var s0 := Step(s, e0);
    CrowdGrows(s0, b, p, []);
    var s1 := Step(s0, e1);
    assert [] + [b + 1] == [b + 1];
    CrowdGrows(s1, b, p, [b + 1]);
    var s2 := Step(s1, e2);
    assert [b + 1] + [b + 2] == [b + 1, b + 2];
    CrowdGrows(s2, b, p, [b + 1, b + 2]);
    assert [b + 1, b + 2] + [b + 3] == [b + 1, b + 2, b + 3];
    es := FourSteps(s, e0, e1, e2, e3);
  }

  lemma FirstRuns(s: State, b: nat)
    requires s.value == 1 && s.permitWaiters == [] && Lines(s, [])
    requires forall i | b <= i :: Unused(s, i) && Free(s, ProfileLock(i))
    ensures var e := Start(b, Inbound, b, b, false); Enabled(s, e) && Crowd(Step(s, e), b, b + 1, [])
  {
    assert Unused(s, b);
    StartRuns(s, b, b, b);
    hide Step;
    var s' := Step(s, Start(b, Inbound, b, b, false));
    NobodyLines(s, s', b, b, ProfileLock(b));
    hide Lines;
    assert Unused(s, b + 1);
    forall i | b < i ensures Unused(s', i) {
      assert Unused(s, i);
    }
  }

  lemma FourSteps(s: State, e0: Event, e1: Event, e2: Event, e3: Event) returns (es: seq<Event>)
    requires Enabled(s, e0) && Enabled(Step(s, e0), e1) && Enabled(Step(Step(s, e0), e1), e2)
    requires Enabled(Step(Step(Step(s, e0), e1), e2), e3)
    ensures ValidRun(s, es) && Run(s, es) == Step(Step(Step(Step(s, e0), e1), e2), e3)
    ensures es == [e0] + ([e1] + ([e2] + [e3]))
  {
    hide Step, Enabled;
    var s0 := Step(s, e0);
    var s1 := Step(s0, e1);
    var s2 := Step(s1, e2);
    RunCons(s2, e3, []);
    RunCons(s1, e2, [e3]);
    RunCons(s0, e1, [e2] + [e3]);
    RunCons(s, e0, [e1] + ([e2] + [e3]));
    es := [e0] + ([e1] + ([e2] + [e3]));
  }

  lemma RouteTaken(s: State, t: TaskId, r: nat, p: nat)
    requires t !in s.tasks && Free(s, RouteLock(r)) && Free(s, ProfileLock(p)) && s.value == 0
    ensures GetLock(Step(s, Start(t, Inbound, r, p, false)), RouteLock(r)) == Lock(true, [])
  {
    var s1 := StartTask(s, t, Inbound, r, p);
    assert Claimable(s1, RouteLock(r));
    var s2 := Claim(s1, RouteLock(r), t);
    assert Claimable(s2, ProfileLock(p));
  }

  /** Turn `b + 1` of profile `p` runs on the only permit, two turns of that profile wait for capacity. */
  ghost predicate OneRunsTwoWait(s: State, b: nat, p: nat) {
    && b + 1 in s.tasks && s.tasks[b + 1] == Task(Inbound, b + 1, p, Ready, Woken, false, true, true, true, false)
    && s.value == 0 && s.permitWaiters == [b + 2, b + 3] && Lines(s, [])
    && GetLock(s, ProfileLock(p)) == Lock(true, []) && GetLock(s, RouteLock(b + 1)) == Lock(true, [])
    && GateWaiter(s, b + 2, p, OnPermit, Pending) && GateWaiter(s, b + 3, p, OnPermit, Pending)
    && Unused(s, b + 4) && b in s.tasks && s.tasks[b].done && forall i | i in s.tasks :: i < b + 4
  }

  /** The other turn has ended, and the first of the three waiters has been handed its permit. */
  ghost predicate FirstIsHanded(s: State, b: nat, p: nat) {
    && GateWaiter(s, b + 1, p, OnPermit, Woken) && s.tasks[b + 1].route == b + 1
    && s.value == 0 && s.permitWaiters == [b + 1] + [b + 2, b + 3] && Lines(s, [b + 1])
    && Free(s, ProfileLock(p)) && GetLock(s, RouteLock(b + 1)) == Lock(true, [])
    && GateWaiter(s, b + 2, p, OnPermit, Pending) && GateWaiter(s, b + 3, p, OnPermit, Pending)
    && Unused(s, b + 4) && b in s.tasks && s.tasks[b].done && forall i | i in s.tasks :: i < b + 4
  }

  lemma OtherEnds(s: State, b: nat)
    requires Crowd(s, b, b + 1, [b + 1, b + 2, b + 3])
    ensures Enabled(s, Finish(b)) && FirstIsHanded(Step(s, Finish(b)), b, b + 1)
  {
    hide Step;
    var p := b + 1;
    assert s.permitWaiters == [b + 1] + [b + 2, b + 3];
    assert ShortOfCapacity(s, b + 1, p) && ShortOfCapacity(s, b + 2, p) && ShortOfCapacity(s, b + 3, p);
    assert Unused(s, b + 4);
    forall i | i in s.tasks ensures i < b + 4 {
      assert b + 3 < i ==> Unused(s, i);
    }
    FinishHandsOver(s, b, b, b, b + 1, [b + 2, b + 3]);
    hide Lines;
    WokenLine(s, Step(s, Finish(b)), b, b + 1, b + 1);
  }

  /** From there the other turn ends and the first waiter runs. */
  lemma FirstWaiterRuns(s: State, b: nat)
    requires Crowd(s, b, b + 1, [b + 1, b + 2, b + 3])
    ensures Enabled(s, Finish(b)) && Enabled(Step(s, Finish(b)), Resume(b + 1, false))
    ensures OneRunsTwoWait(Step(Step(s, Finish(b)), Resume(b + 1, false)), b, b + 1)
  {
    hide Step, Crowd;
    OtherEnds(s, b);
    var s0 := Step(s, Finish(b));
    HandedPermitRuns(s0, b + 1, b + 1, b + 1, [b + 2, b + 3]);
    HandedPermitKeepsRoutes(s0, b + 1, b + 1, [b + 2, b + 3]);
    hide Lines;
    NobodyLines(s0, Step(s0, Resume(b + 1, false)), b + 1, b + 1, ProfileLock(b + 1));
  }

  ghost predicate TwoEnded(s: State, b: nat) {
    && Lines(s, [b + 2, b + 4])
    && b in s.tasks && b + 1 in s.tasks && s.tasks[b].done && s.tasks[b + 1].done
    && forall i | i in s.tasks :: i < b + 5
  }

  /** A fourth turn queues on the profile, the running one ends, and the remaining three spin. */
  lemma ThenSpin(s: State, b: nat, p: nat)
    requires OneRunsTwoWait(s, b, p)
    ensures var e := Start(b + 4, Inbound, b + 4, p, false);
      Enabled(s, e) && Enabled(Step(s, e), Finish(b + 1))
      && Spinning(Step(Step(s, e), Finish(b + 1)), p, b + 2, b + 3, b + 4)
      && TwoEnded(Step(Step(s, e), Finish(b + 1)), b)
  {
    hide Step;
    StartWaitsForProfile(s, b + 4, b + 4, p);
    var s1 := Step(s, Start(b + 4, Inbound, b + 4, p, false));
    hide Lines;
    NobodyLines(s, s1, b + 4, b + 4, ProfileLock(p));
    assert s1.permitWaiters == [b + 2] + [b + 3];
    FinishHandsOver(s1, b + 1, b + 1, p, b + 2, [b + 3]);
    WokenLine(s1, Step(s1, Finish(b + 1)), b + 1, b + 2, b + 4);
  }

  lemma HandedPermitKeepsRoutes(s: State, t: TaskId, p: nat, rest: seq<TaskId>)
    requires GateWaiter(s, t, p, OnPermit, Woken)
    requires s.permitWaiters == [t] + rest && t !in rest && s.value == 0 && Free(s, ProfileLock(p))
    ensures forall m | m != ProfileLock(p) :: GetLock(Step(s, Resume(t, false)), m) == GetLock(s, m)
  {
    var s1 := LeavePermitQueue(s, t);
    assert ResumePermit(s, t) == s1;
    assert Claimable(s1, ProfileLock(p));
  }

  /** `k` turns that run on routes and profiles of their own. */
  lemma {:induction false} LongRunners(s: State, b: nat, k: nat) returns (es: seq<Event>)
    requires s.value >= k && s.permitWaiters == [] && Lines(s, [])
    requires forall i | b <= i :: Unused(s, i) && Free(s, ProfileLock(i))
    ensures ValidRun(s, es) && OwnRoutes(es)
    ensures var s' := Run(s, es);
      && s'.value == s.value - k && s'.permitWaiters == [] && s'.max == s.max && Lines(s', [])
      && forall i | b + k <= i :: Unused(s', i) && Free(s', ProfileLock(i))
    decreases k
  {
    if k == 0 {
      es := [];
    } else {
      var e := Start(b, Inbound, b, b, false);
      assert Unused(s, b);
      StartRuns(s, b, b, b);
      hide Step;
      var s1 := Step(s, e);
      NobodyLines(s, s1, b, b, ProfileLock(b));
      hide Lines;
      forall i | b < i ensures Unused(s1, i) && Free(s1, ProfileLock(i)) {
        assert Unused(s, i);
      }
      var rest := LongRunners(s1, b + 1, k - 1);
      es := [e] + rest;
      RunCons(s, e, rest);
    }
  }

  /** Every event starts a task on the route of its own number. */
  predicate OwnRoutes(es: seq<Event>) {
    forall e | e in es && e.Start? :: e.route == e.t
  }

  predicate Tidy(s: State) {
    forall t | t in s.tasks :: s.tasks[t].route == t
  }

  lemma OwnRoutesTogether(es: seq<Event>, fs: seq<Event>)
    requires OwnRoutes(es) && OwnRoutes(fs)
    ensures OwnRoutes(es + fs)
  {
  }

  lemma InitIsTidy(max: nat)
    ensures Good(Init(max)) && Tidy(Init(max))
  {
    InitIsGood(max);
  }

  lemma StretchIsTidy(s: State, s': State, t: TaskId)
    requires Tidy(s) && Stretch(s, s', t)
    ensures Tidy(s')
  {
    hide Inv, Shape;
  }

  lemma StepIsTidy(s: State, e: Event)
    requires Good(s) && Tidy(s) && Enabled(s, e) && (e.Start? ==> e.route == e.t)
    ensures Tidy(Step(s, e))
  {
    hide Inv, Shape, Stretch, EnterProfile, EnterRoute, ResumeTask, Unwind, CancelTask;
    match e
    case Start(t, kind, route, profile, skip) =>
      StartKeeps(s, t, kind, route, profile);
      var s1 := StartTask(s, t, kind, route, profile);
      if kind == Probe {
        EnterProfileKeeps(s1, t);
      } else {
        EnterRouteKeeps(s1, t, skip);
      }
      StretchIsTidy(s1, Step(s, e), t);
    case Resume(t, skip) =>
      ResumeKeeps(s, t, skip);
      StretchIsTidy(s, Step(s, e), t);
    case Finish(t) =>
      UnwindKeeps(s, t);
      StretchIsTidy(s, Step(s, e), t);
    case Cancel(t) =>
      CancelKeeps(s, t);
      StretchIsTidy(s, Step(s, e), t);
  }

  lemma {:induction false} RunIsTidy(s: State, es: seq<Event>)
    requires Good(s) && Tidy(s) && ValidRun(s, es) && OwnRoutes(es)
    ensures Tidy(Run(s, es))
    decreases |es|
  {
    if es != [] {
      StepIsTidy(s, es[0]);
      StepKeepsGood(s, es[0]);
      RunIsTidy(Step(s, es[0]), es[1..]);
    }
  }

  function UpTo(n: nat): (r: set<nat>)
    ensures |r| == n && forall i: nat :: i in r <==> i < n
  {
    if n == 0 then {} else UpTo(n - 1) + {n - 1}
  }

  lemma FewRoutes(s: State, b: nat)
    requires Tidy(s) && TwoEnded(s, b)
    ensures |InboundRoutes(s)| <= b + 3
  {
    var all := UpTo(b + 5);
    assert |all - {b} - {b + 1}| == b + 3 by {
      assert b in all && b + 1 in all - {b};
    }
    SubsetIsSmaller(InboundRoutes(s), all - {b} - {b + 1});
  }
}
