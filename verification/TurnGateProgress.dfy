/** When the turn gate makes progress: with no more than `max + 1` routes in play, or with any number of routes that
    share no profile, turns and probes can be resumed only so often before one of them runs or ends.
    `TurnGateSpin` shows that one more route, with a shared profile, is enough for a livelock. */
module TurnGateProgress {
  import opened TurnGate
  import opened TurnGateInvariant
  import opened TurnGateTheorems

  /** A run of resumptions in which no resumed task gets to run. */
  predicate IdleRun(s: State, es: seq<Event>)
    decreases |es|
  {
    es == [] ||
    (es[0].Resume? && Enabled(s, es[0]) && !Active(Step(s, es[0]), es[0].t) && IdleRun(Step(s, es[0]), es[1..]))
  }

  /** The routes of the unfinished inbound turns. */
  function InboundRoutes(s: State): set<nat> {
    set t | t in s.tasks && s.tasks[t].kind == Inbound && !s.tasks[t].done :: s.tasks[t].route
  }

  /** No profile has two of those routes. */
  predicate ProfilesUnshared(s: State) {
    forall t, u | t in s.tasks && u in s.tasks && s.tasks[t].kind == Inbound && s.tasks[u].kind == Inbound ::
      !s.tasks[t].done && !s.tasks[u].done && s.tasks[t].profile == s.tasks[u].profile ==>
        s.tasks[t].route == s.tasks[u].route
  }

  predicate Calm(s: State) { |InboundRoutes(s)| <= s.max + 1 || ProfilesUnshared(s) }

  /** Inbound turns waiting inside the gate. */
  function GateWaiters(s: State): set<TaskId> {
    set t | t in s.tasks && s.tasks[t].kind == Inbound && s.tasks[t].hasRoute && s.tasks[t].awaiting != Ready
  }

  lemma SameHolder(s: State, t: TaskId, u: TaskId)
    requires Good(s) && t in s.tasks && u in s.tasks && s.tasks[t].hasRoute && s.tasks[u].hasRoute
    requires s.tasks[t].route == s.tasks[u].route
    ensures t == u
  {
    var n := RouteLock(s.tasks[t].route);
    assert LockOk(s, n);
    assert Holds(s.tasks[t], n) && Holds(s.tasks[u], n);
  }

  lemma {:induction false} OneTurnPerRoute(s: State, ts: set<TaskId>)
    requires Good(s)
    requires forall t | t in ts :: t in s.tasks && s.tasks[t].kind == Inbound && s.tasks[t].hasRoute
    ensures |ts| == |set t | t in ts :: s.tasks[t].route|
  {
    var routes := set t | t in ts :: s.tasks[t].route;
    if ts == {} {
      assert routes == {};
    } else {
      var t :| t in ts;
      OneTurnPerRoute(s, ts - {t});
      var rest := set u | u in ts - {t} :: s.tasks[u].route;
      var r := s.tasks[t].route;
      assert routes == rest + {r};
      if r in rest {
        var u :| u in ts - {t} && s.tasks[u].route == r;
        SameHolder(s, t, u);
        assert false;
      }
    }
  }

  lemma SubsetIsSmaller<T>(a: set<T>, b: set<T>)
    requires a <= b
    ensures |a| <= |b|
    ensures a != b ==> |a| < |b|
  {
    assert b == a + (b - a);
    if a != b {
      assert b - a != {};
    }
  }

  /** A route holds at most one permit, so the routes in play bound the turns in the gate. */
  lemma RoutesBoundTurns(s: State)
    requires Good(s)
    ensures |GateWaiters(s)| + |Held(s)| <= |InboundRoutes(s)|
  {
    var ts := GateWaiters(s) + Held(s);
    forall t | t in ts ensures t in s.tasks && s.tasks[t].kind == Inbound && s.tasks[t].hasRoute && !s.tasks[t].done {
      assert Shape(s.tasks[t]);
    }
    assert GateWaiters(s) !! Held(s) by {
      forall t | t in Held(s) ensures t !in GateWaiters(s) {
        assert Shape(s.tasks[t]);
      }
    }
    OneTurnPerRoute(s, ts);
    SubsetIsSmaller(set t | t in ts :: s.tasks[t].route, InboundRoutes(s));
  }

  /** When a turn wakes up on its profile and finds no permit, every other turn in the gate has one handed
      to it. */
  lemma OthersAreHandedPermits(s: State, t: TaskId)
    requires Good(s) && |InboundRoutes(s)| <= s.max + 1 && s.value == 0
    requires t in GateWaiters(s) && t !in Handed(s)
    ensures GateWaiters(s) == Handed(s) + {t}
  {
    RoutesBoundTurns(s);
    assert PermitUsers(s) == Handed(s) + Held(s);
    assert Handed(s) !! Held(s);
    forall u | u in Handed(s) ensures u in GateWaiters(s) {
      assert Shape(s.tasks[u]);
    }
    SubsetIsSmaller(Handed(s) + {t}, GateWaiters(s));
  }

  // ---------------------------------------------------------------------------------------------
  // The measure
  // ---------------------------------------------------------------------------------------------

  function UnfinishedTasks(s: State): set<TaskId> {
    set t | t in s.tasks && !s.tasks[t].done
  }

  function RouteWaiters(s: State): set<TaskId> {
    set t | t in s.tasks && s.tasks[t].awaiting.OnLock? && s.tasks[t].awaiting.name.RouteLock?
  }

  function CapacityWaiters(s: State): set<TaskId> {
    set t | t in s.tasks && s.tasks[t].awaiting == OnPermit
  }

  predicate WokenOnProfile(task: Task) {
    task.kind == Inbound && task.awaiting.OnLock? && task.awaiting.name.ProfileLock? && task.fut == Woken
  }

  function ProfileWoken(s: State): set<TaskId> {
    set t | t in s.tasks && WokenOnProfile(s.tasks[t])
  }

  function Minor(s: State): nat {
    |CapacityWaiters(s)| + 2 * |ProfileWoken(s)|
  }

  function Measure(s: State): nat {
    (|UnfinishedTasks(s)| + |RouteWaiters(s)|) * (3 * |s.tasks| + 1) + Minor(s)
  }

  lemma MinorIsMinor(s: State)
    ensures Minor(s) <= 3 * |s.tasks|
  {
    SubsetIsSmaller(CapacityWaiters(s), s.tasks.Keys);
    SubsetIsSmaller(ProfileWoken(s), s.tasks.Keys);
  }

  lemma MajorDecides(s: State, s': State)
    requires |s.tasks| == |s'.tasks|
    requires |UnfinishedTasks(s')| + |RouteWaiters(s')| < |UnfinishedTasks(s)| + |RouteWaiters(s)|
    ensures Measure(s') < Measure(s)
  {
    MinorIsMinor(s');
    var k := 3 * |s.tasks| + 1;
    var a, b := |UnfinishedTasks(s)| + |RouteWaiters(s)|, |UnfinishedTasks(s')| + |RouteWaiters(s')|;
    assert b * k + k <= a * k by {
      assert (b + 1) * k <= a * k;
    }
  }

  lemma MinorDecides(s: State, s': State)
    requires s.tasks.Keys == s'.tasks.Keys
    requires UnfinishedTasks(s') == UnfinishedTasks(s) && RouteWaiters(s') == RouteWaiters(s)
    requires Minor(s') < Minor(s)
    ensures Measure(s') < Measure(s)
  {
    assert |s.tasks.Keys| == |s'.tasks.Keys|;
  }

  /** A resumed task that ends, or leaves the queue of its route, settles it. */
  lemma EndingCounts(s: State, s': State, t: TaskId)
    requires OthersKept(s, s', t) && t in s.tasks && !s.tasks[t].done
    requires t !in RouteWaiters(s')
    requires s'.tasks[t].done || t in RouteWaiters(s)
    ensures Measure(s') < Measure(s)
  {
    assert t in UnfinishedTasks(s);
    SubsetIsSmaller(UnfinishedTasks(s'), UnfinishedTasks(s));
    SubsetIsSmaller(RouteWaiters(s'), RouteWaiters(s));
    assert |s.tasks.Keys| == |s'.tasks.Keys|;
    MajorDecides(s, s');
  }

  /** Of the tasks other than `t`, only waiters for the profile of `t` are touched. */
  ghost predicate WakesOwnProfile(s: State, s': State, t: TaskId) {
    && t in s.tasks
    && forall u | u in s.tasks && u != t && u in s'.tasks && s'.tasks[u] != s.tasks[u] ::
         s.tasks[u].awaiting == OnLock(ProfileLock(s.tasks[t].profile))
  }

  /** Every other turn in the gate has a permit handed to it, so none of them sits in a profile queue. */
  lemma NobodyElseQueues(s: State, t: TaskId, u: TaskId)
    requires Good(s) && |InboundRoutes(s)| <= s.max + 1 && s.value == 0
    requires t in s.tasks && WokenOnProfile(s.tasks[t]) && !s.tasks[t].done
    requires u in s.tasks && u != t && s.tasks[u].kind == Inbound && s.tasks[u].awaiting.OnLock?
    ensures s.tasks[u].awaiting.name.RouteLock?
  {
    assert Shape(s.tasks[t]);
    OthersAreHandedPermits(s, t);
    assert Shape(s.tasks[u]);
    assert s.tasks[u].hasRoute ==> u in GateWaiters(s);
  }

  /** No other turn queues on a profile that is not shared. */
  lemma NobodyElseOnProfile(s: State, t: TaskId, u: TaskId)
    requires Good(s) && ProfilesUnshared(s)
    requires t in s.tasks && WokenOnProfile(s.tasks[t]) && u in s.tasks && s.tasks[u].kind == Inbound
    requires s.tasks[u].awaiting == OnLock(ProfileLock(s.tasks[t].profile))
    ensures u == t
  {
    assert Shape(s.tasks[t]) && Shape(s.tasks[u]);
    SameHolder(s, t, u);
  }

  lemma NobodyElseWoken(s: State, s': State, t: TaskId)
    requires Good(s) && Calm(s) && s.value == 0
    requires t in s.tasks && WokenOnProfile(s.tasks[t]) && !s.tasks[t].done
    requires OthersKept(s, s', t) && WakesOwnProfile(s, s', t) && s'.tasks[t].awaiting == OnPermit
    ensures ProfileWoken(s') <= ProfileWoken(s) - {t}
  {
    forall u | u in ProfileWoken(s') ensures u in ProfileWoken(s) - {t} {
      if s'.tasks[u] != s.tasks[u] {
        if ProfilesUnshared(s) {
          NobodyElseOnProfile(s, t, u);
        } else {
          NobodyElseQueues(s, t, u);
        }
      }
    }
  }

  lemma CapacityQueueGrows(s: State, s': State, t: TaskId)
    requires t in s.tasks && s.tasks[t].awaiting.OnLock? && s.tasks[t].awaiting.name.ProfileLock? && !s.tasks[t].done
    requires OthersKept(s, s', t) && s'.tasks[t].awaiting == OnPermit && !s'.tasks[t].done
    ensures |CapacityWaiters(s')| == |CapacityWaiters(s)| + 1
    ensures UnfinishedTasks(s') == UnfinishedTasks(s) && RouteWaiters(s') == RouteWaiters(s)
  {
    assert CapacityWaiters(s') == CapacityWaiters(s) + {t};
    assert UnfinishedTasks(s') == UnfinishedTasks(s);
    assert RouteWaiters(s') == RouteWaiters(s);
  }

  /** Woken on the profile, no permit left, off to the capacity queue. */
  lemma BackToCapacity(s: State, s': State, t: TaskId)
    requires t in s.tasks && WokenOnProfile(s.tasks[t]) && !s.tasks[t].done
    requires OthersKept(s, s', t) && s'.tasks[t].awaiting == OnPermit && !s'.tasks[t].done
    requires ProfileWoken(s') <= ProfileWoken(s) - {t}
    ensures Measure(s') < Measure(s)
  {
    CapacityQueueGrows(s, s', t);
    assert t in ProfileWoken(s);
    SubsetIsSmaller(ProfileWoken(s'), ProfileWoken(s) - {t});
    assert Minor(s') < Minor(s);
    MinorDecides(s, s');
  }

  lemma WokenWithoutPermit(s: State, t: TaskId, skip: bool)
    requires Good(s) && Enabled(s, Resume(t, skip))
    requires WokenOnProfile(s.tasks[t]) && !Interrupted(s.tasks[t]) && !Active(ResumeTask(s, t, skip), t)
    ensures var s' := ResumeTask(s, t, skip);
      && s.value == 0 && OthersKept(s, s', t) && WakesOwnProfile(s, s', t)
      && s'.tasks[t].awaiting == OnPermit && !s'.tasks[t].done
  {
    var n := s.tasks[t].awaiting.name;
    assert Shape(s.tasks[t]);
    ResumeAcquireKeeps(s, n, t);
    var s1 := ResumeAcquire(s, n, t);
    assert forall u | u in s.tasks && u != t :: s1.tasks[u] == s.tasks[u];
    if s1.value > 0 {
      TakePermitKeeps(s1, t);
      assert false;
    }
    assert ResumeTask(s, t, skip) == AcquirePermit(Release(s1, n, t), t);
    hide ResumeTask, ResumeAcquire, Good, Inv;
    ProfileWithoutPermit(s1, n, t);
    OthersKeptTrans(s, s1, AcquirePermit(Release(s1, n, t), t), t);
  }

  lemma ProfileWithoutPermit(s: State, n: LockName, t: TaskId)
    requires Inv(s) && t in s.tasks && s.tasks[t].awaiting == Ready && n == ProfileLock(s.tasks[t].profile)
    requires s.tasks[t].hasProfile && !s.tasks[t].hasPermit && !s.tasks[t].done && s.value == 0
    ensures var s' := AcquirePermit(Release(s, n, t), t);
      && OthersKept(s, s', t) && WakesOwnProfile(s, s', t) && s'.tasks[t].awaiting == OnPermit && !s'.tasks[t].done
  {
    ReleaseKeeps(s, n, t);
    var s1 := Release(s, n, t);
    ReleaseWakesOwn(s, n, t);
    AcquirePermitKeeps(s1, t);
    hide Inv, Release;
    OthersKeptTrans(s, s1, AcquirePermit(s1, t), t);
  }

  lemma ReleaseWakesOwn(s: State, n: LockName, t: TaskId)
    requires Inv(s) && t in s.tasks
    ensures forall u | u in s.tasks && u != t && Release(s, n, t).tasks[u] != s.tasks[u] ::
              s.tasks[u].awaiting == OnLock(n)
  {
    assert LockOk(s, n);
  }

  /** Handed a permit, profile not free, off to the profile queue. */
  lemma BackToProfile(s: State, s': State, t: TaskId)
    requires t in s.tasks && s.tasks[t].awaiting == OnPermit && !s.tasks[t].done
    requires OthersKept(s, s', t) && s'.tasks[t].awaiting.OnLock? && s'.tasks[t].awaiting.name.ProfileLock?
    requires !s'.tasks[t].done && ProfileWoken(s') == ProfileWoken(s)
    ensures Measure(s') < Measure(s)
  {
    assert t in CapacityWaiters(s) && CapacityWaiters(s') == CapacityWaiters(s) - {t};
    assert UnfinishedTasks(s') == UnfinishedTasks(s);
    assert RouteWaiters(s') == RouteWaiters(s);
    hide Measure;
    MinorDecides(s, s');
  }

  lemma HandedButBlocked(s: State, t: TaskId, skip: bool)
    requires Good(s) && Enabled(s, Resume(t, skip)) && s.tasks[t].awaiting == OnPermit && !Interrupted(s.tasks[t])
    requires !Active(ResumeTask(s, t, skip), t)
    ensures var s' := ResumeTask(s, t, skip);
      && s'.tasks.Keys == s.tasks.Keys && s'.tasks[t].awaiting.OnLock? && s'.tasks[t].awaiting.name.ProfileLock?
      && !s'.tasks[t].done && ProfileWoken(s') == ProfileWoken(s)
  {
    assert Shape(s.tasks[t]);
    ResumePermitKeeps(s, t);
    var s1 := ResumePermit(s, t);
    OnlyPermitsWakesNoProfile(s, s1);
    assert ResumeTask(s, t, skip) == ReenterProfile(s1, t);
    BlockedReentry(s1, t);
  }

  lemma BlockedReentry(s: State, t: TaskId)
    requires Inv(s) && t in s.tasks && s.tasks[t].awaiting == Ready && s.tasks[t].hasPermit && !s.tasks[t].done
    requires !Active(ReenterProfile(s, t), t)
    ensures var s' := ReenterProfile(s, t);
      && s'.tasks.Keys == s.tasks.Keys && s'.tasks[t].awaiting.OnLock? && s'.tasks[t].awaiting.name.ProfileLock?
      && !s'.tasks[t].done && ProfileWoken(s') == ProfileWoken(s)
  {
    var n := ProfileLock(s.tasks[t].profile);
    assert !Claimable(s, n);
    ReleasePermitKeeps(s, t);
    var s2 := ReleasePermit(s, t);
    OnlyPermitsWakesNoProfile(s, s2);
    hide ReleasePermit, Inv, OnlyPermits, Claimable;
    EnqueueWakesNobody(s2, n, t);
  }

  lemma EnqueueWakesNobody(s: State, n: LockName, t: TaskId)
    requires t in s.tasks && s.tasks[t].awaiting == Ready
    ensures ProfileWoken(Enqueue(s, n, t)) == ProfileWoken(s)
  {
  }

  lemma OnlyPermitsWakesNoProfile(s: State, s': State)
    requires OnlyPermits(s, s')
    ensures ProfileWoken(s') == ProfileWoken(s)
  {
  }

  lemma IdleStepShrinks(s: State, t: TaskId, skip: bool)
    requires Good(s) && Calm(s) && Enabled(s, Resume(t, skip))
    requires !Active(ResumeTask(s, t, skip), t)
    ensures Measure(ResumeTask(s, t, skip)) < Measure(s)
  {
    hide ResumeTask, Measure, Inv;
    var task := s.tasks[t];
    var s' := ResumeTask(s, t, skip);
    assert Shape(task);
    ResumeKeeps(s, t, skip);
    if Interrupted(task) {
      InterruptedEnds(s, t, skip);
    }
    if s'.tasks[t].done {
      EndingCounts(s, s', t);
    } else if task.awaiting == OnPermit {
      HandedButBlocked(s, t, skip);
      BackToProfile(s, s', t);
    } else if task.awaiting.name.RouteLock? {
      RouteIsLeft(s, t, skip);
      EndingCounts(s, s', t);
    } else if task.kind == Inbound {
      WokenWithoutPermit(s, t, skip);
      NobodyElseWoken(s, s', t);
      BackToCapacity(s, s', t);
    } else {
      OthersRun(s, t, skip);
    }
  }

  lemma OthersRun(s: State, t: TaskId, skip: bool)
    requires Good(s) && Enabled(s, Resume(t, skip)) && !Interrupted(s.tasks[t])
    requires s.tasks[t].awaiting.OnLock? && s.tasks[t].awaiting.name.ProfileLock? && s.tasks[t].kind != Inbound
    ensures Active(ResumeTask(s, t, skip), t)
  {
    assert Shape(s.tasks[t]);
    ResumeAcquireKeeps(s, s.tasks[t].awaiting.name, t);
  }

  lemma InterruptedEnds(s: State, t: TaskId, skip: bool)
    requires Good(s) && Enabled(s, Resume(t, skip)) && Interrupted(s.tasks[t])
    ensures ResumeTask(s, t, skip).tasks[t].done
  {
    assert Shape(s.tasks[t]);
    match s.tasks[t].awaiting
    case OnLock(n) =>
      ResumeAcquireKeeps(s, n, t);
      UnwindKeeps(ResumeAcquire(s, n, t), t);
    case OnPermit =>
      ResumePermitKeeps(s, t);
      UnwindKeeps(ResumePermit(s, t), t);
  }

  lemma RouteIsLeft(s: State, t: TaskId, skip: bool)
    requires Good(s) && Enabled(s, Resume(t, skip)) && !Interrupted(s.tasks[t])
    requires s.tasks[t].awaiting.OnLock? && s.tasks[t].awaiting.name.RouteLock?
    ensures t !in RouteWaiters(ResumeTask(s, t, skip))
  {
    var n := s.tasks[t].awaiting.name;
    assert Shape(s.tasks[t]);
    ResumeAcquireKeeps(s, n, t);
    var s1 := ResumeAcquire(s, n, t);
    if s1.tasks[t].kind == Drainer {
      UnwindKeeps(s1, t);
    } else if s1.tasks[t].kind == Inbound && skip {
    } else {
      EnterProfileLeavesRoute(s1, t);
    }
  }

  lemma EnterProfileLeavesRoute(s: State, t: TaskId)
    requires Inv(s) && t in s.tasks && s.tasks[t].awaiting == Ready && !s.tasks[t].hasProfile && !s.tasks[t].hasPermit
    requires !s.tasks[t].done && s.tasks[t].kind != Drainer && s.tasks[t].hasRoute && s.tasks[t].kind != Probe
    ensures t !in RouteWaiters(EnterProfile(s, t))
  {
    EnterProfileKeeps(s, t);
    var s' := EnterProfile(s, t);
    if t in RouteWaiters(s') {
      assert Shape(s'.tasks[t]);
    }
  }

  lemma RoutesShrink(s: State, s': State, t: TaskId)
    requires Stretch(s, s', t) && !s.tasks[t].done
    ensures |InboundRoutes(s')| <= |InboundRoutes(s)|
  {
    hide Inv, Shape;
    forall r | r in InboundRoutes(s') ensures r in InboundRoutes(s) {
      var u :| u in s'.tasks && s'.tasks[u].kind == Inbound && !s'.tasks[u].done && s'.tasks[u].route == r;
      assert u in s.tasks && s.tasks[u].route == r && s.tasks[u].kind == Inbound;
      assert !s.tasks[u].done;
    }
    SubsetIsSmaller(InboundRoutes(s'), InboundRoutes(s));
  }

  lemma StaysUnshared(s: State, s': State, t: TaskId)
    requires Stretch(s, s', t) && !s.tasks[t].done && ProfilesUnshared(s)
    ensures ProfilesUnshared(s')
  {
    hide Inv, Shape;
    assert forall u | u in s.tasks :: SameIdentity(s.tasks[u], s'.tasks[u]) && (s.tasks[u].done ==> s'.tasks[u].done);
  }

  lemma StaysCalm(s: State, s': State, t: TaskId)
    requires Stretch(s, s', t) && !s.tasks[t].done && Calm(s)
    ensures Calm(s')
  {
    hide ProfilesUnshared, InboundRoutes;
    RoutesShrink(s, s', t);
    if ProfilesUnshared(s) {
      StaysUnshared(s, s', t);
    }
  }

  /** No livelock with at most `max + 1` routes in play, or while they share no profile: the number of resumptions that bring no turn or
      probe to run is bounded, whatever order the tasks are resumed in. */
  lemma {:induction false} IdleRunsAreBounded(s: State, es: seq<Event>)
    requires Good(s) && Calm(s) && IdleRun(s, es)
    ensures |es| <= Measure(s)
    decreases |es|
  {
    hide ResumeTask, Measure, Inv;
    if es != [] {
      var t, skip := es[0].t, es[0].skip;
      var s' := ResumeTask(s, t, skip);
      IdleStepShrinks(s, t, skip);
      StepKeepsGood(s, es[0]);
      ResumeKeeps(s, t, skip);
      assert Shape(s.tasks[t]);
      StaysCalm(s, s', t);
      IdleRunsAreBounded(s', es[1..]);
    }
  }
}
