/** The turn gate of the router: route locks, profile locks and the global execution permits, driven by
    tasks of one event loop.

    Each stretch of a coroutine between two suspensions is one atomic step. `asyncio.Lock` is a FIFO lock
    whose release only wakes the head waiter: until that waiter resumes the lock reads unlocked. The
    permit semaphore hands a released permit straight to the first undone waiter. Both are written out
    here as operations on one state value. */
module TurnGate {
  type TaskId = nat

  datatype LockName = RouteLock(route: nat) | ProfileLock(profile: nat)

  /** The future a suspended task waits on. `Cancelled` means the future itself was cancelled; a task whose
      future was already woken keeps it and is marked `mustCancel` instead. */
  datatype Fut = Pending | Woken | Cancelled

  datatype Await = Ready | OnLock(name: LockName) | OnPermit

  /** Who runs: a Signal turn, a synthetic turn (`noWait` when its lock timeout is zero), a preflight probe
      (profile lock only), or a drain that takes a route lock and releases it at once. */
  datatype Kind = Inbound | Synthetic(noWait: bool) | Probe | Drainer

  datatype Task = Task(
    kind: Kind, route: nat, profile: nat,
    awaiting: Await, fut: Fut, mustCancel: bool,
    hasRoute: bool, hasProfile: bool, hasPermit: bool, done: bool)

  datatype Lock = Lock(locked: bool, waiters: seq<TaskId>)

  datatype State = State(
    locks: map<LockName, Lock>, value: nat, permitWaiters: seq<TaskId>,
    tasks: map<TaskId, Task>, max: nat)

  function GetLock(s: State, n: LockName): Lock {
    if n in s.locks then s.locks[n] else Lock(false, [])
  }

  function FutOf(s: State, t: TaskId): Fut {
    if t in s.tasks then s.tasks[t].fut else Cancelled
  }

  predicate Holds(task: Task, n: LockName) {
    match n
    case RouteLock(r) => task.hasRoute && task.route == r
    case ProfileLock(p) => task.hasProfile && task.profile == p
  }

  function WithHold(task: Task, n: LockName, held: bool): Task {
    match n
    case RouteLock(_) => task.(hasRoute := held)
    case ProfileLock(_) => task.(hasProfile := held)
  }

  function NameFor(task: Task, n: LockName): LockName {
    match n
    case RouteLock(_) => RouteLock(task.route)
    case ProfileLock(_) => ProfileLock(task.profile)
  }

  function Without(ws: seq<TaskId>, t: TaskId): (r: seq<TaskId>)
  {
    if ws == [] then [] else if ws[0] == t then ws[1..] else [ws[0]] + Without(ws[1..], t)
  }

  // ---------------------------------------------------------------------------------------------
  // asyncio.Lock
  // ---------------------------------------------------------------------------------------------

  /** Unlocked and no queued waiter that is not cancelled. */
  predicate Claimable(s: State, n: LockName) {
    var l := GetLock(s, n);
    !l.locked && forall w | w in l.waiters :: FutOf(s, w) == Cancelled
  }

  function Claim(s: State, n: LockName, t: TaskId): State
    requires t in s.tasks
  {
    s.(locks := s.locks[n := GetLock(s, n).(locked := true)],
       tasks := s.tasks[t := WithHold(s.tasks[t], n, true)])
  }

  function Enqueue(s: State, n: LockName, t: TaskId): State
    requires t in s.tasks
  {
    var l := GetLock(s, n);
    s.(locks := s.locks[n := l.(waiters := l.waiters + [t])],
       tasks := s.tasks[t := s.tasks[t].(awaiting := OnLock(n), fut := Pending, mustCancel := false)])
  }

  /** The first stretch of `Lock.acquire`: take the lock, or queue and suspend. */
  function Acquire(s: State, n: LockName, t: TaskId): State
    requires t in s.tasks
  {
    if Claimable(s, n) then Claim(s, n, t) else Enqueue(s, n, t)
  }

  function WakeFirst(s: State, n: LockName): State {
    var l := GetLock(s, n);
    if |l.waiters| > 0 && l.waiters[0] in s.tasks && s.tasks[l.waiters[0]].fut == Pending then
      s.(tasks := s.tasks[l.waiters[0] := s.tasks[l.waiters[0]].(fut := Woken)])
    else s
  }

  function Release(s: State, n: LockName, t: TaskId): State
    requires t in s.tasks
  {
    WakeFirst(
      s.(locks := s.locks[n := GetLock(s, n).(locked := false)],
         tasks := s.tasks[t := WithHold(s.tasks[t], n, false)]), n)
  }

  /** Leave the queue after the awaited future finished. */
  function LeaveQueue(s: State, n: LockName, t: TaskId): State
    requires t in s.tasks
  {
    var l := GetLock(s, n);
    s.(locks := s.locks[n := l.(waiters := Without(l.waiters, t))],
       tasks := s.tasks[t := s.tasks[t].(awaiting := Ready, mustCancel := false)])
  }

  predicate Interrupted(task: Task) { task.fut == Cancelled || task.mustCancel }

  /** The second stretch of `Lock.acquire`: the lock is taken, or, when cancellation is delivered here, the
      next waiter is woken if the lock is free. */
  function ResumeAcquire(s: State, n: LockName, t: TaskId): State
    requires t in s.tasks
  {
    var s1 := LeaveQueue(s, n, t);
    if !Interrupted(s.tasks[t]) then Claim(s1, n, t)
    else if !GetLock(s1, n).locked then WakeFirst(s1, n)
    else s1
  }

  // ---------------------------------------------------------------------------------------------
  // asyncio.Semaphore, plus the gate's direct decrement
  // ---------------------------------------------------------------------------------------------

  function FirstPending(s: State, ws: seq<TaskId>): (i: int)
    ensures -1 <= i < |ws|
    ensures i >= 0 ==> FutOf(s, ws[i]) == Pending
    ensures i < 0 ==> forall w | w in ws :: FutOf(s, w) != Pending
  {
    if ws == [] then -1
    else if FutOf(s, ws[0]) == Pending then 0
    else
      var r := FirstPending(s, ws[1..]);
      assert forall w | w in ws :: w == ws[0] || w in ws[1..];
      if r < 0 then -1 else r + 1
  }

  /** Hands permits to undone waiters while there are any of both. */
  function WakeWaiters(s: State): (s': State)
    ensures s'.tasks.Keys == s.tasks.Keys
    decreases s.value
  {
    var i := FirstPending(s, s.permitWaiters);
    if s.value > 0 && i >= 0 then
      var w := s.permitWaiters[i];
      WakeWaiters(s.(value := s.value - 1, tasks := s.tasks[w := s.tasks[w].(fut := Woken)]))
    else s
  }

  function WakeOne(s: State): State {
    var i := FirstPending(s, s.permitWaiters);
    if s.value > 0 && i >= 0 then
      var w := s.permitWaiters[i];
      s.(value := s.value - 1, tasks := s.tasks[w := s.tasks[w].(fut := Woken)])
    else s
  }

  function ReleasePermit(s: State, t: TaskId): State
    requires t in s.tasks
  {
    WakeOne(s.(value := s.value + 1, tasks := s.tasks[t := s.tasks[t].(hasPermit := false)]))
  }

  /** The fast path of the gate writes the counter directly. */
  function TakePermit(s: State, t: TaskId): State
    requires t in s.tasks && s.value > 0
  {
    s.(value := s.value - 1, tasks := s.tasks[t := s.tasks[t].(hasPermit := true)])
  }

  function AcquirePermit(s: State, t: TaskId): State
    requires t in s.tasks
  {
    if s.value > 0 && (forall w | w in s.permitWaiters :: FutOf(s, w) == Cancelled) then TakePermit(s, t)
    else
      s.(permitWaiters := s.permitWaiters + [t],
         tasks := s.tasks[t := s.tasks[t].(awaiting := OnPermit, fut := Pending, mustCancel := false)])
  }

  /** Leave the permit queue; a handed permit is kept, or put back on the counter when cancellation is
      delivered here. */
  function LeavePermitQueue(s: State, t: TaskId): State
    requires t in s.tasks
  {
    var task := s.tasks[t];
    var handed := task.fut == Woken;
    s.(permitWaiters := Without(s.permitWaiters, t),
       tasks := s.tasks[t := task.(awaiting := Ready, mustCancel := false,
                                   hasPermit := handed && !Interrupted(task))],
       value := if handed && Interrupted(task) then s.value + 1 else s.value)
  }

  /** The second stretch of `Semaphore.acquire`. */
  function ResumePermit(s: State, t: TaskId): State
    requires t in s.tasks
  {
    WakeWaiters(LeavePermitQueue(s, t))
  }

  // ---------------------------------------------------------------------------------------------
  // The coroutines
  // ---------------------------------------------------------------------------------------------

  function Finished(s: State, t: TaskId): State
    requires t in s.tasks
  {
    s.(tasks := s.tasks[t := s.tasks[t].(done := true)])
  }

  function ReleaseIfHeld(s: State, n: LockName, t: TaskId): State
    requires t in s.tasks
  {
    if Holds(s.tasks[t], n) then Release(s, n, t) else s
  }

  /** Unwinds every `finally`: permit, then profile lock, then route lock. */
  function Unwind(s: State, t: TaskId): (s': State)
    requires t in s.tasks
    ensures t in s'.tasks
  {
    var s1 := if s.tasks[t].hasPermit then ReleasePermit(s, t) else s;
    var s2 := ReleaseIfHeld(s1, ProfileLock(s.tasks[t].profile), t);
    var s3 := ReleaseIfHeld(s2, RouteLock(s.tasks[t].route), t);
    Finished(s3, t)
  }

  /** The task has just obtained its profile lock. */
  function AfterProfile(s: State, t: TaskId): State
    requires t in s.tasks
  {
    if s.tasks[t].kind != Inbound then s
    else if s.value > 0 then TakePermit(s, t)
    else AcquirePermit(Release(s, ProfileLock(s.tasks[t].profile), t), t)
  }

  function EnterProfile(s: State, t: TaskId): State
    requires t in s.tasks
  {
    var n := ProfileLock(s.tasks[t].profile);
    var noWait := s.tasks[t].kind == Probe || s.tasks[t].kind == Synthetic(true);
    if noWait && GetLock(s, n).locked then Unwind(s, t)
    else if Claimable(s, n) then AfterProfile(Claim(s, n, t), t)
    else Enqueue(s, n, t)
  }

  /** The task has just obtained its route lock; `skip` says that an inbound event is empty or stale and is
      only marked as skipped. */
  function AfterRoute(s: State, t: TaskId, skip: bool): State
    requires t in s.tasks
  {
    if s.tasks[t].kind == Drainer then Unwind(s, t)
    else if s.tasks[t].kind == Inbound && skip then s
    else EnterProfile(s, t)
  }

  function EnterRoute(s: State, t: TaskId, skip: bool): State
    requires t in s.tasks
  {
    var n := RouteLock(s.tasks[t].route);
    if s.tasks[t].kind == Synthetic(true) && GetLock(s, n).locked then Unwind(s, t)
    else if Claimable(s, n) then AfterRoute(Claim(s, n, t), t, skip)
    else Enqueue(s, n, t)
  }

  /** The capacity wait has ended with a permit in hand: run, or give the permit back and queue for the
      profile lock holding nothing. */
  function ReenterProfile(s: State, t: TaskId): State
    requires t in s.tasks
  {
    var n := ProfileLock(s.tasks[t].profile);
    if Claimable(s, n) then Claim(s, n, t)
    else
      var s1 := ReleasePermit(s, t);
      if Claimable(s1, n) then AfterProfile(Claim(s1, n, t), t) else Enqueue(s1, n, t)
  }

  datatype Event =
    | Start(t: TaskId, kind: Kind, route: nat, profile: nat, skip: bool)
    | Resume(t: TaskId, skip: bool)
    | Finish(t: TaskId)
    | Cancel(t: TaskId)

  /** A task that holds what it needs and is running, skipping or probing. */
  predicate Active(s: State, t: TaskId) {
    t in s.tasks && !s.tasks[t].done && s.tasks[t].awaiting == Ready
  }

  predicate Suspended(s: State, t: TaskId) {
    t in s.tasks && s.tasks[t].awaiting != Ready
  }

  predicate Enabled(s: State, e: Event) {
    match e
    case Start(t, _, _, _, _) => t !in s.tasks
    case Resume(t, _) => Suspended(s, t) && s.tasks[t].fut != Pending
    case Finish(t) => Active(s, t)
    case Cancel(t) => Suspended(s, t)
  }

  function StartTask(s: State, t: TaskId, kind: Kind, route: nat, profile: nat): State {
    s.(tasks := s.tasks[t := Task(kind, route, profile, Ready, Pending, false, false, false, false, false)])
  }

  function ResumeTask(s: State, t: TaskId, skip: bool): State
    requires t in s.tasks
  {
    var task := s.tasks[t];
    match task.awaiting
    case Ready => s
    case OnLock(n) =>
      var s1 := ResumeAcquire(s, n, t);
      if Interrupted(task) then Unwind(s1, t)
      else if n.RouteLock? then AfterRoute(s1, t, skip)
      else AfterProfile(s1, t)
    case OnPermit =>
      var s1 := ResumePermit(s, t);
      if Interrupted(task) then Unwind(s1, t) else ReenterProfile(s1, t)
  }

  function CancelTask(s: State, t: TaskId): State
    requires t in s.tasks
  {
    var task := s.tasks[t];
    s.(tasks := s.tasks[t := if task.fut == Pending then task.(fut := Cancelled) else task.(mustCancel := true)])
  }

  function Step(s: State, e: Event): State
    requires Enabled(s, e)
  {
    match e
    case Start(t, kind, route, profile, skip) =>
      var s1 := StartTask(s, t, kind, route, profile);
      if kind == Probe then EnterProfile(s1, t) else EnterRoute(s1, t, skip)
    case Resume(t, skip) => ResumeTask(s, t, skip)
    case Finish(t) => Unwind(s, t)
    case Cancel(t) => CancelTask(s, t)
  }

  function Init(max: nat): State {
    State(map[], max, [], map[], max)
  }

  predicate ValidRun(s: State, es: seq<Event>)
    decreases |es|
  {
    es == [] || (Enabled(s, es[0]) && ValidRun(Step(s, es[0]), es[1..]))
  }

  function Run(s: State, es: seq<Event>): State
    requires ValidRun(s, es)
    decreases |es|
  {
    if es == [] then s else Run(Step(s, es[0]), es[1..])
  }
}
