/** What the turn gate promises, over every run from an idle router. */
module TurnGateTheorems {
  import opened TurnGate
  import opened TurnGateInvariant

  function Handed(s: State): set<TaskId> {
    set t | t in s.tasks && s.tasks[t].awaiting == OnPermit && s.tasks[t].fut == Woken
  }

  function Held(s: State): set<TaskId> {
    set t | t in s.tasks && s.tasks[t].hasPermit
  }

  /** Free, handed-over and held permits add up, whatever was cancelled on the way. */
  lemma PermitsConserved(max: nat, es: seq<Event>)
    requires ValidRun(Init(max), es)
    ensures var s := Run(Init(max), es);
      s.value + |Handed(s)| + |Held(s)| == max && Handed(s) !! Held(s)
  {
    InitIsGood(max);
    RunIsGood(Init(max), es);
    var s := Run(Init(max), es);
    assert PermitUsers(s) == Handed(s) + Held(s);
    assert Handed(s) !! Held(s);
  }

  /** At most one task holds a lock, and a lock is locked exactly while one does. */
  lemma LocksAreExclusive(max: nat, es: seq<Event>, n: LockName)
    requires ValidRun(Init(max), es)
    ensures var s := Run(Init(max), es);
      && (forall t, u | t in s.tasks && u in s.tasks && Holds(s.tasks[t], n) && Holds(s.tasks[u], n) :: t == u)
      && (GetLock(s, n).locked <==> exists t :: t in s.tasks && Holds(s.tasks[t], n))
  {
    InitIsGood(max);
    RunIsGood(Init(max), es);
    var s := Run(Init(max), es);
    assert LockOk(s, n);
    if GetLock(s, n).locked {
      var h :| HolderIs(s, n, h);
      assert Holds(s.tasks[h], n);
    }
  }

  /** A locked profile lock means that a turn or a probe is executing on that profile right now: no task
      that waits for anything keeps a profile lock or a permit. */
  lemma NoHoldAndWait(max: nat, es: seq<Event>, t: TaskId)
    requires ValidRun(Init(max), es) && Suspended(Run(Init(max), es), t)
    ensures var s := Run(Init(max), es);
      && !s.tasks[t].hasPermit && !s.tasks[t].hasProfile
      && (s.tasks[t].hasRoute ==> s.tasks[t].awaiting == OnPermit || s.tasks[t].awaiting == OnLock(ProfileLock(s.tasks[t].profile)))
  {
    InitIsGood(max);
    RunIsGood(Init(max), es);
    var s := Run(Init(max), es);
    hide Run, ValidRun, Inv;
    assert Shape(s.tasks[t]);
  }

  /** A turn never waits for capacity while capacity is free. */
  lemma NoPermitLiesIdle(max: nat, es: seq<Event>, t: TaskId)
    requires ValidRun(Init(max), es)
    requires var s := Run(Init(max), es);
      Suspended(s, t) && s.tasks[t].awaiting == OnPermit && s.tasks[t].fut == Pending
    ensures Run(Init(max), es).value == 0
  {
    InitIsGood(max);
    RunIsGood(Init(max), es);
    var s := Run(Init(max), es);
    assert t in s.permitWaiters;
  }

  // ---------------------------------------------------------------------------------------------
  // Deadlock freedom
  // ---------------------------------------------------------------------------------------------

  predicate Unfinished(s: State, t: TaskId) {
    t in s.tasks && !s.tasks[t].done
  }

  /** A step of the tasks themselves: no new task, no cancellation. */
  predicate OwnStep(s: State, e: Event) {
    (e.Resume? || e.Finish?) && Enabled(s, e)
  }

  ghost predicate CanStep(s: State) {
    exists e :: OwnStep(s, e)
  }

  lemma ActiveCanStep(s: State, t: TaskId)
    requires Active(s, t) || (Suspended(s, t) && s.tasks[t].fut != Pending)
    ensures CanStep(s)
  {
    var e := if Active(s, t) then Finish(t) else Resume(t, false);
    assert OwnStep(s, e);
  }

  /** A free lock somebody waits for has a head that can run. */
  lemma FreeLockMoves(s: State, n: LockName, t: TaskId)
    requires Good(s) && t in s.tasks && s.tasks[t].awaiting == OnLock(n) && !GetLock(s, n).locked
    ensures CanStep(s)
  {
    assert LockOk(s, n);
    var ws := GetLock(s, n).waiters;
    assert t in ws;
    assert ws[0] in ws;
    ActiveCanStep(s, ws[0]);
  }

  lemma PermitQueueMoves(s: State, t: TaskId)
    requires Good(s) && s.max >= 1 && t in s.tasks && s.tasks[t].awaiting == OnPermit && s.tasks[t].fut == Pending
    ensures CanStep(s)
  {
    assert t in s.permitWaiters;
    assert s.value == 0;
    assert |PermitUsers(s)| >= 1;
    var u :| u in PermitUsers(s);
    assert Shape(s.tasks[u]);
    ActiveCanStep(s, u);
  }

  lemma ProfileQueueMoves(s: State, p: nat, t: TaskId)
    requires Good(s) && t in s.tasks && s.tasks[t].awaiting == OnLock(ProfileLock(p))
    ensures CanStep(s)
  {
    var n := ProfileLock(p);
    if GetLock(s, n).locked {
      assert LockOk(s, n);
      var h :| HolderIs(s, n, h);
      assert Shape(s.tasks[h]) && Holds(s.tasks[h], n);
      ActiveCanStep(s, h);
    } else {
      FreeLockMoves(s, n, t);
    }
  }

  lemma HolderMoves(s: State, h: TaskId)
    requires Good(s) && s.max >= 1 && h in s.tasks && s.tasks[h].hasRoute
    ensures CanStep(s)
  {
    assert Shape(s.tasks[h]);
    match s.tasks[h].awaiting
    case Ready => ActiveCanStep(s, h);
    case OnLock(n) => ProfileQueueMoves(s, n.profile, h);
    case OnPermit =>
      if s.tasks[h].fut == Pending {
        PermitQueueMoves(s, h);
      } else {
        ActiveCanStep(s, h);
      }
  }

  /** Deadlock freedom: with at least one permit, whatever turns, probes and drains are unfinished on any
      number of routes and profiles, one of them can take a step of its own. */
  lemma SomeTaskCanStep(max: nat, es: seq<Event>, t: TaskId)
    requires max >= 1 && ValidRun(Init(max), es) && Unfinished(Run(Init(max), es), t)
    ensures CanStep(Run(Init(max), es))
  {
    InitIsGood(max);
    RunIsGood(Init(max), es);
    var s := Run(Init(max), es);
    assert Shape(s.tasks[t]);
    match s.tasks[t].awaiting
    case Ready => ActiveCanStep(s, t);
    case OnPermit =>
      if s.tasks[t].fut == Pending {
        PermitQueueMoves(s, t);
      } else {
        ActiveCanStep(s, t);
      }
    case OnLock(n) =>
      if n.ProfileLock? {
        ProfileQueueMoves(s, n.profile, t);
      } else if GetLock(s, n).locked {
        assert LockOk(s, n);
        var h :| HolderIs(s, n, h);
        assert Holds(s.tasks[h], n);
        HolderMoves(s, h);
      } else {
        FreeLockMoves(s, n, t);
      }
  }
}
