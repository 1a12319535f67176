/** How the dedupe store closes its connection while worker threads are at it: two locks and a counter.
    Every step below is what one thread does between two points where it may wait for a lock. */
module DeferredClose {
  import opened Options

  type Thread = nat

  datatype Kind = Turn | Sweep

  /** Where a thread is. */
  datatype Pc =
    | Idle
    | WantBegin(kind: Kind)    // waits for the state lock in _begin_*_operation
    | InBegin(kind: Kind)      // holds the state lock
    | WantCheck                // a sweep between two chunks, waits for the state lock
    | InCheck                  // holds the state lock
    | WantLock(kind: Kind)     // waits for the statement lock
    | InStatement(kind: Kind)  // holds the statement lock and uses the connection
    | WantEnd                  // waits for the state lock in _end_operation
    | InEnd                    // holds the state lock
    | WantFinal                // holds the state lock, waits for the statement lock
    | InFinal                  // holds both and closes the connection
    | Closed                   // holds the state lock, the connection is closed, the flag is not set yet
    | WantClose                // waits for the state lock in close()
    | InClose                  // holds the state lock

  datatype State = State(
    pcs: map<Thread, Pc>,
    stateLock: Option<Thread>,
    lock: Option<Thread>,
    active: int,
    requested: bool,
    closed: bool,
    open: bool,
    closes: nat)

  /** What a thread that is not inside the store may call. */
  datatype Event = Begin(t: Thread, kind: Kind) | Close(t: Thread) | Go(t: Thread, more: bool)

  predicate IsActive(pc: Pc) {
    pc.WantCheck? || pc.InCheck? || pc.WantLock? || pc.InStatement? || pc.WantEnd? || pc.InEnd?
  }

  predicate HoldsState(pc: Pc) {
    pc.InBegin? || pc.InCheck? || pc.InEnd? || pc.WantFinal? || pc.InFinal? || pc.Closed? || pc.InClose?
  }

  predicate HoldsLock(pc: Pc) { pc.InStatement? || pc.InFinal? }

  predicate WaitsForState(pc: Pc) { pc.WantBegin? || pc.WantCheck? || pc.WantEnd? || pc.WantClose? }

  predicate WaitsForLock(pc: Pc) { pc.WantLock? || pc.WantFinal? }

  predicate Enabled(s: State, e: Event) {
    && e.t in s.pcs
    && match e
       case Begin(t, _) => s.pcs[t] == Idle
       case Close(t) => s.pcs[t] == Idle
       case Go(t, _) =>
         && s.pcs[t] != Idle
         && (WaitsForState(s.pcs[t]) ==> s.stateLock == None)
         && (WaitsForLock(s.pcs[t]) ==> s.lock == None)
  }

  function Move(s: State, t: Thread, pc: Pc): State { s.(pcs := s.pcs[t := pc]) }

  function Step(s: State, e: Event): State
    requires Enabled(s, e)
  {
    match e
    case Begin(t, kind) => Move(s, t, WantBegin(kind))
    case Close(t) => Move(s, t, WantClose)
    case Go(t, more) =>
      match s.pcs[t]
      case Idle => s
      case WantBegin(kind) => Move(s, t, InBegin(kind)).(stateLock := Some(t))
      case InBegin(kind) =>
        if s.closed || s.requested then Move(s, t, Idle).(stateLock := None)
        else Move(s, t, if kind.Sweep? then WantCheck else WantLock(Turn)).(stateLock := None, active := s.active + 1)
      case WantCheck => Move(s, t, InCheck).(stateLock := Some(t))
      case InCheck => Move(s, t, if s.requested then WantEnd else WantLock(Sweep)).(stateLock := None)
      case WantLock(kind) => Move(s, t, InStatement(kind)).(lock := Some(t))
      case InStatement(kind) => Move(s, t, if kind.Sweep? && more then WantCheck else WantEnd).(lock := None)
      case WantEnd => Move(s, t, InEnd).(stateLock := Some(t))
      case InEnd =>
        if s.active - 1 == 0 && s.requested && !s.closed then Move(s, t, WantFinal).(active := s.active - 1)
        else Move(s, t, Idle).(active := s.active - 1, stateLock := None)
      case WantFinal => Move(s, t, InFinal).(lock := Some(t))
      case InFinal => Move(s, t, Closed).(open := false, closes := s.closes + 1, lock := None)
      case Closed => Move(s, t, Idle).(closed := true, stateLock := None)
      case WantClose => Move(s, t, InClose).(stateLock := Some(t))
      case InClose =>
        if s.closed then Move(s, t, Idle).(stateLock := None)
        else if s.active > 0 then Move(s, t, Idle).(requested := true, stateLock := None)
        else Move(s, t, Idle).(closed := true, open := false, closes := s.closes + 1, stateLock := None)
  }

  /** What close() answers when it leaves the state lock. */
  function CloseAnswer(s: State): bool { s.closed || s.active <= 0 }

  function Fresh(threads: set<Thread>): State {
    State(map t | t in threads :: Idle, None, None, 0, false, false, true, 0)
  }

  ghost predicate ValidRun(s: State, es: seq<Event>)
    decreases |es|
  {
    es == [] || (Enabled(s, es[0]) && ValidRun(Step(s, es[0]), es[1..]))
  }

  function Run(s: State, es: seq<Event>): State
    requires ValidRun(s, es)
    decreases |es|
  {
    if es == [] then s else Run(Step(s, es[0]), es[1..])
  }

  // ---------------------------------------------------------------------------------------------
  // Invariant
  // ---------------------------------------------------------------------------------------------

  function ActiveThreads(s: State): set<Thread> { set t | t in s.pcs && IsActive(s.pcs[t]) }

  ghost predicate LocksAreHeld(s: State) {
    && (forall t :: t in s.pcs && HoldsState(s.pcs[t]) <==> s.stateLock == Some(t))
    && (forall t :: t in s.pcs && HoldsLock(s.pcs[t]) <==> s.lock == Some(t))
  }

  /** The thread that finalizes is past its operation, and no other operation is left. */
  predicate Finalizing(s: State) {
    s.stateLock.Some? && s.stateLock.value in s.pcs &&
    var pc := s.pcs[s.stateLock.value]; pc.WantFinal? || pc.InFinal? || pc.Closed?
  }

  ghost predicate Inv(s: State) {
    && LocksAreHeld(s)
    && s.active == |ActiveThreads(s)|
    && Flags(s)
  }

  function Count(b: bool): int { if b then 1 else 0 }

  /** A lock is taken when it is free, given back by its holder, or left alone. */
  predicate LockMoves(lock: Option<Thread>, lock': Option<Thread>, t: Thread, holds: bool, holds': bool) {
    if holds == holds' then lock' == lock
    else if holds' then lock == None && lock' == Some(t)
    else lock' == None
  }

  predicate Shape(s: State, t: Thread, s': State) {
    && t in s.pcs && t in s'.pcs && s'.pcs == s.pcs[t := s'.pcs[t]]
    && LockMoves(s.stateLock, s'.stateLock, t, HoldsState(s.pcs[t]), HoldsState(s'.pcs[t]))
    && LockMoves(s.lock, s'.lock, t, HoldsLock(s.pcs[t]), HoldsLock(s'.pcs[t]))
    && s'.active - s.active == Count(IsActive(s'.pcs[t])) - Count(IsActive(s.pcs[t]))
  }

  lemma CallShape(s: State, e: Event)
    requires Enabled(s, e) && !e.Go?
    ensures Shape(s, e.t, Step(s, e))
  {
  }

  predicate Entering(pc: Pc) { pc.WantBegin? || pc.InBegin? || pc.WantClose? || pc.InClose? }

  predicate Working(pc: Pc) { pc.WantCheck? || pc.InCheck? || pc.WantLock? || pc.InStatement? }

  lemma EnteringShape(s: State, e: Event)
    requires Enabled(s, e) && e.Go? && Entering(s.pcs[e.t])
    ensures Shape(s, e.t, Step(s, e))
  {
  }

  lemma WorkingShape(s: State, e: Event)
    requires Enabled(s, e) && e.Go? && Working(s.pcs[e.t])
    ensures Shape(s, e.t, Step(s, e))
  {
  }

  lemma EndingShape(s: State, e: Event)
    requires Enabled(s, e) && e.Go? && !Entering(s.pcs[e.t]) && !Working(s.pcs[e.t])
    ensures Shape(s, e.t, Step(s, e))
  {
  }

  lemma StepShape(s: State, e: Event)
    requires Enabled(s, e)
    ensures Shape(s, e.t, Step(s, e))
  {
    assert e.t in s.pcs;
    hide Step, Shape, Enabled, Entering, Working;
    if !e.Go? {
      CallShape(s, e);
    } else if Entering(s.pcs[e.t]) {
      EnteringShape(s, e);
    } else if Working(s.pcs[e.t]) {
      WorkingShape(s, e);
    } else {
      EndingShape(s, e);
    }
  }

  lemma CountAfter(s: State, t: Thread, s': State)
    requires Shape(s, t, s') && s.active == |ActiveThreads(s)|
    ensures s'.active == |ActiveThreads(s')|
  {
    hide IsActive, LockMoves;
    if IsActive(s.pcs[t]) == IsActive(s'.pcs[t]) {
      assert ActiveThreads(s') == ActiveThreads(s);
    } else if IsActive(s'.pcs[t]) {
      assert ActiveThreads(s') == ActiveThreads(s) + {t};
    } else {
      assert t in ActiveThreads(s);
      assert ActiveThreads(s') == ActiveThreads(s) - {t};
    }
  }

  lemma OneIsActive(s: State, t: Thread)
    requires t in s.pcs && IsActive(s.pcs[t])
    ensures |ActiveThreads(s)| > 0
  {
    assert t in ActiveThreads(s);
  }

  lemma LocksAfter(s: State, t: Thread, s': State)
    requires Shape(s, t, s') && LocksAreHeld(s)
    ensures LocksAreHeld(s')
  {
    hide HoldsState, HoldsLock, IsActive;
  }

  ghost predicate Flags(s: State) {
    && s.closes == (if s.open then 0 else 1)
    && (Finalizing(s) ==> s.requested && !s.closed && s.active == 0)
    && (s.open <==> !s.closed && !(Finalizing(s) && s.pcs[s.stateLock.value].Closed?))
    && (s.requested ==> s.closed || s.active > 0 || Finalizing(s))
    && (s.closed ==> s.active == 0)
  }

  lemma FlagsAfter(s: State, e: Event)
    requires Enabled(s, e) && Flags(s) && s.active >= Count(IsActive(s.pcs[e.t]))
    requires HoldsState(s.pcs[e.t]) <==> s.stateLock == Some(e.t)
    ensures Flags(Step(s, e))
  {
  }

  lemma StepKeeps(s: State, e: Event)
    requires Inv(s) && Enabled(s, e)
    ensures Inv(Step(s, e))
  {
    hide ActiveThreads, Step, LocksAreHeld, Flags, Shape, Enabled, IsActive;
    StepShape(s, e);
    CountAfter(s, e.t, Step(s, e));
    LocksAfter(s, e.t, Step(s, e));
    assert e.t in s.pcs by { InPcs(s, e); }
    if IsActive(s.pcs[e.t]) {
      OneIsActive(s, e.t);
    }
    Holder(s, e.t);
    FlagsAfter(s, e);
  }

  lemma InPcs(s: State, e: Event)
    requires Enabled(s, e)
    ensures e.t in s.pcs
  {
  }

  lemma Holder(s: State, t: Thread)
    requires LocksAreHeld(s) && t in s.pcs
    ensures HoldsState(s.pcs[t]) <==> s.stateLock == Some(t)
    ensures HoldsLock(s.pcs[t]) <==> s.lock == Some(t)
  {
  }

  lemma FreshIsGood(threads: set<Thread>)
    ensures Inv(Fresh(threads))
  {
    assert ActiveThreads(Fresh(threads)) == {};
  }

  lemma {:induction false} RunKeeps(s: State, es: seq<Event>)
    requires Inv(s) && ValidRun(s, es)
    ensures Inv(Run(s, es))
    decreases |es|
  {
    if es != [] {
      StepKeeps(s, es[0]);
      RunKeeps(Step(s, es[0]), es[1..]);
    }
  }

  // ---------------------------------------------------------------------------------------------
  // What it is for
  // ---------------------------------------------------------------------------------------------

  /** For any number of threads: a statement runs only on an open connection and alone, and the connection is closed
      at most once, exactly when the store is not open any more. */
  lemma NoStatementOnClosedConnection(threads: set<Thread>, es: seq<Event>, t: Thread)
    requires ValidRun(Fresh(threads), es)
    ensures var s := Run(Fresh(threads), es);
      && s.closes <= 1
      && (t in s.pcs && (s.pcs[t].InStatement? || s.pcs[t].InFinal?) ==>
            s.open && forall u :: u in s.pcs && (s.pcs[u].InStatement? || s.pcs[u].InFinal?) ==> u == t)
  {
    FreshIsGood(threads);
    RunKeeps(Fresh(threads), es);
    var s := Run(Fresh(threads), es);
    if t in s.pcs && s.pcs[t].InStatement? {
      OneIsActive(s, t);
    }
  }

  predicate Refusing(s: State) { s.requested || s.closed }

  lemma RefusesOnce(s: State, e: Event)
    requires Enabled(s, e) && Refusing(s)
    ensures Refusing(Step(s, e)) && ActiveThreads(Step(s, e)) <= ActiveThreads(s)
  {
    StepShape(s, e);
    assert IsActive(Step(s, e).pcs[e.t]) ==> IsActive(s.pcs[e.t]);
    hide Step, IsActive;
  }

  /** From a close request on, the store refuses every new operation. */
  lemma {:induction false} NoOperationStartsAfterRequest(s: State, es: seq<Event>)
    requires ValidRun(s, es) && Refusing(s)
    ensures Refusing(Run(s, es))
    ensures ActiveThreads(Run(s, es)) <= ActiveThreads(s)
    decreases |es|
  {
    if es != [] {
      var s' := Step(s, es[0]);
      RefusesOnce(s, es[0]);
      NoOperationStartsAfterRequest(s', es[1..]);
    }
  }

  /** A close that was put off is done by the time the operations that were in flight are: no request is forgotten. */
  lemma DeferredCloseIsCompleted(threads: set<Thread>, es: seq<Event>)
    requires ValidRun(Fresh(threads), es)
    ensures var s := Run(Fresh(threads), es);
      s.requested && (forall t :: t in s.pcs ==> !IsActive(s.pcs[t]) && !HoldsState(s.pcs[t])) ==> s.closed && !s.open
  {
    FreshIsGood(threads);
    RunKeeps(Fresh(threads), es);
    var s := Run(Fresh(threads), es);
    if forall t :: t in s.pcs ==> !IsActive(s.pcs[t]) && !HoldsState(s.pcs[t]) {
      assert ActiveThreads(s) == {};
    }
  }

  /** close() tells the truth: on leaving it the connection is closed exactly if it answered true. */
  lemma CloseAnswersTruly(s: State, t: Thread)
    requires Inv(s) && t in s.pcs && s.pcs[t].InClose?
    ensures Enabled(s, Go(t, false))
    ensures var s' := Step(s, Go(t, false)); s'.open == !CloseAnswer(s) && (!CloseAnswer(s) ==> s'.requested && s'.active > 0)
  {
    assert s.stateLock == Some(t);
  }

  /** Whoever holds the state lock can go on at once: the finalizer finds the statement lock free, so neither close()
      nor the end of an operation ever waits for a statement, and lock order cannot deadlock. */
  lemma StateHolderNeverWaits(s: State, t: Thread)
    requires Inv(s) && s.stateLock == Some(t)
    ensures Enabled(s, Go(t, false))
  {
    if s.pcs[t].WantFinal? {
      forall u | s.lock == Some(u) ensures false {
        assert HoldsLock(s.pcs[u]);
        if s.pcs[u].InStatement? {
          OneIsActive(s, u);
        }
      }
    }
  }

  /** In every reachable state where a thread is inside the store, some thread inside the store can step. */
  lemma NoDeadlock(threads: set<Thread>, es: seq<Event>, t: Thread)
    requires ValidRun(Fresh(threads), es)
    requires var s := Run(Fresh(threads), es); t in s.pcs && s.pcs[t] != Idle
    ensures var s := Run(Fresh(threads), es); exists u :: u in s.pcs && s.pcs[u] != Idle && Enabled(s, Go(u, false))
  {
    FreshIsGood(threads);
    RunKeeps(Fresh(threads), es);
    var s := Run(Fresh(threads), es);
    if s.stateLock.Some? {
      StateHolderNeverWaits(s, s.stateLock.value);
      assert Enabled(s, Go(s.stateLock.value, false));
    } else if s.lock.Some? {
      assert HoldsLock(s.pcs[s.lock.value]);
      assert Enabled(s, Go(s.lock.value, false));
    } else {
      assert Enabled(s, Go(t, false));
    }
  }

  // ---------------------------------------------------------------------------------------------
  // What an operation does, and when it stops
  // ---------------------------------------------------------------------------------------------

  /** The thread of `e` gets to `pc` by it. */
  ghost predicate Reaches(s: State, e: Event, pc: Pc)
    requires Enabled(s, e)
  {
    Step(s, e).pcs[e.t] == pc
  }

  /** How an operation begins, and no other way: when no close was requested or done; a turn is then about to run a
      statement, a sweep about to look whether it may. */
  lemma OperationsBegin(s: State, e: Event)
    requires Enabled(s, e) && e.Go?
    ensures var pc := s.pcs[e.t];
      && (forall kind :: Reaches(s, e, InBegin(kind)) <==> pc == WantBegin(kind))
      && (Reaches(s, e, WantLock(Turn)) <==> pc == InBegin(Turn) && !s.requested && !s.closed)
      && (Reaches(s, e, WantCheck) <==>
            (pc == InBegin(Sweep) && !s.requested && !s.closed) || (pc == InStatement(Sweep) && e.more))
      && (Reaches(s, e, InCheck) <==> pc == WantCheck)
  {
  }

  /** How it runs statements: a turn one, a sweep one after each look that found no request, while it has more to do. */
  lemma OperationsRun(s: State, e: Event)
    requires Enabled(s, e) && e.Go?
    ensures var pc := s.pcs[e.t];
      && (Reaches(s, e, WantLock(Sweep)) <==> pc == InCheck && !s.requested)
      && (forall kind :: Reaches(s, e, InStatement(kind)) <==> pc == WantLock(kind))
      && (Reaches(s, e, WantEnd) <==>
            pc == InStatement(Turn) || (pc == InStatement(Sweep) && !e.more) || (pc == InCheck && s.requested))
      && (Reaches(s, e, InEnd) <==> pc == WantEnd)
  {
    match s.pcs[e.t]
    case InStatement(kind) => assert kind == Turn || kind == Sweep;
    case _ =>
  }

  /** The last operation to end after a request closes the connection under both locks; every other end, a refused begin and
      a close() that is through leave the store. */
  lemma EndsInOrder(s: State, e: Event)
    requires Inv(s) && Enabled(s, e) && e.Go?
    ensures var pc := s.pcs[e.t];
      && (Reaches(s, e, WantFinal) <==> pc == InEnd && s.requested && s.active == 1)
      && (Reaches(s, e, InFinal) <==> pc == WantFinal) && (Reaches(s, e, Closed) <==> pc == InFinal)
      && (Reaches(s, e, InClose) <==> pc == WantClose)
      && (Reaches(s, e, Idle) <==>
            || pc == Closed || pc == InClose || (pc.InBegin? && (s.requested || s.closed))
            || (pc == InEnd && !(s.requested && s.active == 1)))
  {
    if s.pcs[e.t] == InEnd {
      OneIsActive(s, e.t);
    }
  }

  /** Who changes the flags: only a close() that finds an operation in flight requests, only one that finds none and the
      finalizer close, once. */
  lemma FlagsChange(s: State, e: Event)
    requires Inv(s) && Enabled(s, e)
    ensures var s' := Step(s, e);
      var closing := e.Go? && s.pcs[e.t] == InClose && !s.closed;
      && (s'.requested <==> s.requested || (closing && s.active > 0))
      && (s'.closed <==> s.closed || (closing && s.active == 0) || (e.Go? && s.pcs[e.t] == Closed))
      && (s'.open <==> s.open && !(closing && s.active == 0) && !(e.Go? && s.pcs[e.t] == InFinal))
      && (e.Begin? ==> s'.pcs[e.t] == WantBegin(e.kind)) && (e.Close? ==> s'.pcs[e.t] == WantClose)
  {
  }

  /** On its way out of an operation. */
  predicate Leaving(pc: Pc) { pc.WantEnd? || pc.InEnd? || pc.WantFinal? || pc.InFinal? || pc.Closed? || pc.Idle? }

  /** The thread starts nothing new. */
  predicate StartsNothing(es: seq<Event>, t: Thread) { forall e :: e in es && e.t == t ==> e.Go? }

  lemma {:induction false} LeavingGoesOn(s: State, es: seq<Event>, t: Thread)
    requires ValidRun(s, es) && t in s.pcs && Leaving(s.pcs[t]) && StartsNothing(es, t)
    ensures t in Run(s, es).pcs && Leaving(Run(s, es).pcs[t])
    decreases |es|
  {
    if es != [] {
      StepShape(s, es[0]);
      assert es[0] in es && forall e :: e in es[1..] ==> e in es;
      LeavingGoesOn(Step(s, es[0]), es[1..], t);
    }
  }

  /** A sweep whose look finds a request runs no further statement, however the other threads go on. */
  lemma SweepStopsAtRequest(s: State, t: Thread, more: bool, es: seq<Event>)
    requires t in s.pcs && s.pcs[t] == InCheck && s.requested && Enabled(s, Go(t, more))
    requires ValidRun(Step(s, Go(t, more)), es) && StartsNothing(es, t)
    ensures var s' := Run(Step(s, Go(t, more)), es);
      t in s'.pcs && !s'.pcs[t].WantLock? && !s'.pcs[t].InStatement?
  {
    LeavingGoesOn(Step(s, Go(t, more)), es, t);
  }

  lemma {:induction false} RunTogether(s: State, es: seq<Event>, e: Event)
    requires ValidRun(s, es) && Enabled(Run(s, es), e)
    ensures ValidRun(s, es + [e]) && Run(s, es + [e]) == Step(Run(s, es), e)
    decreases |es|
  {
    hide Step, Enabled;
    if es == [] {
      assert (es + [e])[1..] == [];
    } else {
      assert (es + [e])[1..] == es[1..] + [e];
      RunTogether(Step(s, es[0]), es[1..], e);
    }
  }
}
