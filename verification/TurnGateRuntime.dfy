/** The turn gate with its locks and its semaphore updated in place. Each method is one stretch of a coroutine, or a
    part of one, and is proved against the state machine of `TurnGate`. */
module TurnGateRuntime {
  import opened TurnGate

  class Gate {
    const max: nat
    var locks: map<LockName, Lock>
    var value: nat
    var permitWaiters: seq<TaskId>
    var tasks: map<TaskId, Task>

    ghost function View(): State reads this { State(locks, value, permitWaiters, tasks, max) }

    constructor (max: nat)
      ensures View() == Init(max)
    {
      this.max, value, locks, permitWaiters, tasks := max, max, map[], [], map[];
    }

    function LockOf(n: LockName): (l: Lock)
      reads this
      ensures l == GetLock(View(), n)
    {
      if n in locks then locks[n] else Lock(false, [])
    }

    function FutureOf(t: TaskId): (f: Fut)
      reads this
      ensures f == FutOf(View(), t)
    {
      if t in tasks then tasks[t].fut else Cancelled
    }

    /** any(not w.cancelled() for w in waiters) */
    method AnyWaiting(waiters: seq<TaskId>) returns (found: bool)
      ensures found == exists w :: w in waiters && FutOf(View(), w) != Cancelled
    {
      for i := 0 to |waiters|
        invariant forall w :: w in waiters[..i] ==> FutOf(View(), w) == Cancelled
      {
        assert waiters[..i + 1] == waiters[..i] + [waiters[i]];
        if FutureOf(waiters[i]) != Cancelled {
          return true;
        }
      }
      assert waiters[..|waiters|] == waiters;
      found := false;
    }

    /** Claims a lock only when it is immediately available: unlocked, and nobody in front. */
    method TryClaimUncontended(n: LockName, t: TaskId) returns (claimed: bool)
      requires t in tasks
      modifies this`locks, this`tasks
      ensures claimed == Claimable(old(View()), n)
      ensures View() == if claimed then Claim(old(View()), n, t) else old(View())
    {
      var lock := LockOf(n);
      if lock.locked {
        return false;
      }
      var waiting := AnyWaiting(lock.waiters);
      if waiting {
        return false;
      }
      locks := locks[n := lock.(locked := true)];
      tasks := tasks[t := WithHold(tasks[t], n, true)];
      claimed := true;
    }

    /** The first stretch of Lock.acquire: false means that the task is suspended. */
    method LockAcquire(n: LockName, t: TaskId) returns (acquired: bool)
      requires t in tasks
      modifies this`locks, this`tasks
      ensures acquired == Claimable(old(View()), n) && View() == Acquire(old(View()), n, t)
    {
      acquired := TryClaimUncontended(n, t);
      if !acquired {
        var lock := LockOf(n);
        locks := locks[n := lock.(waiters := lock.waiters + [t])];
        tasks := tasks[t := tasks[t].(awaiting := OnLock(n), fut := Pending, mustCancel := false)];
      }
    }

    /** Lock._wake_up_first: the head waiter, unless its future is done. */
    method WakeUpFirst(n: LockName)
      modifies this`tasks
      ensures View() == WakeFirst(old(View()), n)
    {
      var lock := LockOf(n);
      if |lock.waiters| == 0 {
        return;
      }
      var w := lock.waiters[0];
      if w in tasks && tasks[w].fut == Pending {
        tasks := tasks[w := tasks[w].(fut := Woken)];
      }
    }

    method LockRelease(n: LockName, t: TaskId)
      requires t in tasks
      modifies this`locks, this`tasks
      ensures View() == Release(old(View()), n, t)
    {
      locks := locks[n := LockOf(n).(locked := false)];
      tasks := tasks[t := WithHold(tasks[t], n, false)];
      WakeUpFirst(n);
    }

    /** Removes the future of `t` from a queue: the first occurrence, as deque.remove does. */
    method Removed(waiters: seq<TaskId>, t: TaskId) returns (rest: seq<TaskId>)
      ensures rest == Without(waiters, t)
    {
      for i := 0 to |waiters|
        invariant Without(waiters, t) == waiters[..i] + Without(waiters[i..], t)
      {
        var ahead := waiters[i..];
        assert ahead[0] == waiters[i] && ahead[1..] == waiters[i + 1..];
        if waiters[i] == t {
          return waiters[..i] + waiters[i + 1..];
        }
        assert waiters[..i] + [waiters[i]] == waiters[..i + 1];
      }
      assert waiters[|waiters|..] == [];
      rest := waiters;
      assert waiters[..|waiters|] + [] == waiters;
    }

    /** The second stretch of Lock.acquire: false is CancelledError. */
    method LockResume(n: LockName, t: TaskId) returns (acquired: bool)
      requires t in tasks
      modifies this`locks, this`tasks
      ensures acquired == !Interrupted(old(tasks)[t]) && View() == ResumeAcquire(old(View()), n, t)
    {
      var task, lock := tasks[t], LockOf(n);
      var rest := Removed(lock.waiters, t);
      locks := locks[n := lock.(waiters := rest)];
      tasks := tasks[t := task.(awaiting := Ready, mustCancel := false)];
      acquired := task.fut != Cancelled && !task.mustCancel;
      if acquired {
        locks := locks[n := LockOf(n).(locked := true)];
        tasks := tasks[t := WithHold(tasks[t], n, true)];
      } else if !LockOf(n).locked {
        WakeUpFirst(n);
      }
    }

    /** Semaphore._wake_up_next: hands one permit to the first waiter whose future is not done. */
    method WakeUpNext() returns (woken: bool)
      requires value > 0
      modifies this`value, this`tasks
      ensures woken == (FirstPending(old(View()), old(permitWaiters)) >= 0)
      ensures View() == WakeOne(old(View()))
    {
      for i := 0 to |permitWaiters|
        invariant View() == old(View())
        invariant FirstPending(View(), permitWaiters)
               == (var r := FirstPending(View(), permitWaiters[i..]); if r < 0 then -1 else i + r)
      {
        var w := permitWaiters[i];
        var ahead := permitWaiters[i..];
        assert ahead[0] == w && ahead[1..] == permitWaiters[i + 1..];
        if FutureOf(w) == Pending {
          assert FirstPending(View(), permitWaiters) == i;
          if w in tasks {
            value := value - 1;
            tasks := tasks[w := tasks[w].(fut := Woken)];
          }
          return true;
        }
      }
      woken := false;
    }

    method SemaphoreRelease(t: TaskId)
      requires t in tasks
      modifies this`value, this`tasks
      ensures View() == ReleasePermit(old(View()), t)
    {
      value := value + 1;
      tasks := tasks[t := tasks[t].(hasPermit := false)];
      var _ := WakeUpNext();
    }

    /** The first stretch of Semaphore.acquire: false means that the task is suspended. */
    method SemaphoreAcquire(t: TaskId) returns (acquired: bool)
      requires t in tasks
      modifies this`value, this`permitWaiters, this`tasks
      ensures View() == AcquirePermit(old(View()), t)
      ensures acquired ==> old(value) > 0
    {
      var waiting := AnyWaiting(permitWaiters);
      if value > 0 && !waiting {
        value := value - 1;
        tasks := tasks[t := tasks[t].(hasPermit := true)];
        return true;
      }
      permitWaiters := permitWaiters + [t];
      tasks := tasks[t := tasks[t].(awaiting := OnPermit, fut := Pending, mustCancel := false)];
      acquired := false;
    }

    /** The second stretch of Semaphore.acquire: a permit that was handed to a cancelled task goes back, and as long as
        there are permits and waiters they are brought together. */
    method SemaphoreResume(t: TaskId) returns (acquired: bool)
      requires t in tasks
      modifies this`value, this`permitWaiters, this`tasks
      ensures acquired == !Interrupted(old(tasks)[t]) && View() == ResumePermit(old(View()), t)
    {
      var task := tasks[t];
      var handed := task.fut == Woken;
      acquired := task.fut != Cancelled && !task.mustCancel;
      permitWaiters := Removed(permitWaiters, t);
      tasks := tasks[t := task.(awaiting := Ready, mustCancel := false, hasPermit := handed && acquired)];
      if handed && !acquired {
        value := value + 1;
      }
      while value > 0
        invariant WakeWaiters(View()) == ResumePermit(old(View()), t)
        decreases value
      {
        var woken := WakeUpNext();
        if !woken {
          break;
        }
      }
    }

    /** The gate's loop from its head: run with both, or be suspended with neither. */
    method LoopHead(t: TaskId)
      requires t in tasks && tasks[t].kind == Inbound
      modifies this`locks, this`value, this`permitWaiters, this`tasks
      ensures View() == EnterProfile(old(View()), t)
    {
      var profileLock := ProfileLock(tasks[t].profile);
      var acquired := LockAcquire(profileLock, t);
      if !acquired {
        return;
      }
      if value > 0 {
        value := value - 1;
        tasks := tasks[t := tasks[t].(hasPermit := true)];
        return;
      }
      LockRelease(profileLock, t);
      var permit := SemaphoreAcquire(t);
    }

    /** The gate of an inbound turn, from its start or from the end of its capacity wait, which is where its loop comes
        round, up to where it runs or is suspended again. */
    method GateStretch(t: TaskId, resumed: bool)
      requires t in tasks && tasks[t].kind == Inbound && tasks[t].hasPermit == resumed
      modifies this`locks, this`value, this`permitWaiters, this`tasks
      ensures View() == if resumed then ReenterProfile(old(View()), t) else EnterProfile(old(View()), t)
    {
      hide Claim, Enqueue, Release, AcquirePermit, WakeOne;
      if resumed {
        var profileLock := ProfileLock(tasks[t].profile);
        var claimed := TryClaimUncontended(profileLock, t);
        if claimed {
          return;
        }
        ReleaseKeepsTask(View(), t);
        SemaphoreRelease(t);
      }
      LoopHead(t);
    }
  }

  lemma ReleaseKeepsTask(s: State, t: TaskId)
    requires t in s.tasks
    ensures var s' := ReleasePermit(s, t);
      t in s'.tasks && s'.tasks[t].kind == s.tasks[t].kind && s'.tasks[t].profile == s.tasks[t].profile
  {
  }

  // ---------------------------------------------------------------------------------------------
  // Why the waiters have to be looked at
  // ---------------------------------------------------------------------------------------------

  /** A claim that looked at `locked` alone would take a lock that its woken head waiter is about to take as well: in
      every such state both end up holding it. */
  lemma UnlockedIsNotUncontended(s: State, n: LockName, t: TaskId, w: TaskId)
    requires t in s.tasks && w in s.tasks && t != w
    requires !GetLock(s, n).locked && w in GetLock(s, n).waiters
    requires s.tasks[w].awaiting == OnLock(n) && s.tasks[w].fut == Woken && !s.tasks[w].mustCancel
    requires NameFor(s.tasks[t], n) == n && NameFor(s.tasks[w], n) == n
    ensures !Claimable(s, n)
    ensures var s' := ResumeAcquire(Claim(s, n, t), n, w); Holds(s'.tasks[t], n) && Holds(s'.tasks[w], n)
  {
  }
}
