/** Livelock in the turn gate: three turns of one profile pass one permit around for ever, and no turn runs. Such a
    state is reachable for every number of permits; `TurnGateProgress` shows that it takes more than `max + 1` routes
    and a profile that some of them share. */
module TurnGateSpin {
  import opened TurnGate
  import opened TurnGateInvariant
  import opened TurnGateTheorems
  import opened TurnGateProgress
  import opened TurnGateCrowd

  /** `k` rounds of the spin. */
  function SpinRounds(k: nat, x: TaskId, y: TaskId, z: TaskId): (es: seq<Event>)
    ensures |es| == 2 * k
  {
    if k == 0 then [] else [Resume(x, false), Resume(z, false)] + SpinRounds(k - 1, y, z, x)
  }

  lemma IdleCons(s: State, e: Event, es: seq<Event>)
    requires e.Resume? && Enabled(s, e) && !Active(Step(s, e), e.t) && IdleRun(Step(s, e), es)
    ensures IdleRun(s, [e] + es)
  {
    assert ([e] + es)[1..] == es;
  }

  /** The permit goes round for as many steps as one likes: every step is a resumed turn, no turn is
      cancelled, none arrives, and none ever starts to run. */
  lemma {:induction false} SpinsForEver(s: State, p: nat, x: TaskId, y: TaskId, z: TaskId, k: nat)
    requires Spinning(s, p, x, y, z)
    ensures var es := SpinRounds(k, x, y, z);
      IdleRun(s, es) && ValidRun(s, es) && NobodyRan(s, Run(s, es), x, y, z)
    decreases k
  {
    hide Step, Enabled, Active;
    if k > 0 {
      var e, f, rest := Resume(x, false), Resume(z, false), SpinRounds(k - 1, y, z, x);
      SpinRound(s, p, x, y, z);
      var s1 := Step(s, e);
      var s2 := Step(s1, f);
      SpinsForEver(s2, p, y, z, x, k - 1);
      assert SpinRounds(k, x, y, z) == [e] + ([f] + rest);
      RunCons(s1, f, rest);
      RunCons(s, e, [f] + rest);
      IdleCons(s1, f, rest);
      IdleCons(s, e, [f] + rest);
      NobodyRanTwice(s, s2, Run(s2, rest), x, y, z);
    }
  }

  // ---------------------------------------------------------------------------------------------
  // In the order of the event loop
  // ---------------------------------------------------------------------------------------------

  /** The loop resumes the tasks first in, first out: what a step makes runnable goes behind what already is. */
  ghost predicate FifoRun(s: State, ready: seq<TaskId>, es: seq<Event>)
    decreases |es|
  {
    && Lines(s, ready)
    && (es != [] ==>
          && ready != [] && es[0].Resume? && es[0].t == ready[0] && Enabled(s, es[0])
          && exists next :: FifoRun(Step(s, es[0]), ready[1..] + next, es[1..]))
  }

  lemma FifoCons(s: State, ready: seq<TaskId>, skip: bool, next: seq<TaskId>, es: seq<Event>)
    requires ready != [] && Lines(s, ready) && Enabled(s, Resume(ready[0], skip))
    requires FifoRun(Step(s, Resume(ready[0], skip)), ready[1..] + next, es)
    ensures FifoRun(s, ready, [Resume(ready[0], skip)] + es)
  {
    hide Step, Lines;
    assert ([Resume(ready[0], skip)] + es)[1..] == es;
  }

  /** The spin needs no help from the scheduler: it is what the loop's own order brings about. */
  lemma {:induction false} SpinIsFifo(s: State, p: nat, x: TaskId, y: TaskId, z: TaskId, k: nat)
    requires Spinning(s, p, x, y, z) && Lines(s, [x, z])
    ensures FifoRun(s, [x, z], SpinRounds(k, x, y, z))
    decreases k
  {
    hide Step, Enabled, Active, Lines;
    if k > 0 {
      var e, f, rest := Resume(x, false), Resume(z, false), SpinRounds(k - 1, y, z, x);
      SpinRound(s, p, x, y, z);
      RoundLines(s, p, x, y, z);
      hide Spinning;
      var s1 := Step(s, e);
      var s2 := Step(s1, f);
      SpinIsFifo(s2, p, y, z, x, k - 1);
      hide FifoRun;
      assert [z, y][1..] + [x] == [y, x] && [x, z][1..] + [y] == [z, y];
      FifoCons(s1, [z, y], false, [x], rest);
      FifoCons(s, [x, z], false, [y], [f] + rest);
      assert SpinRounds(k, x, y, z) == [e] + ([f] + rest);
    }
  }

  // ---------------------------------------------------------------------------------------------
  // From the idle router
  // ---------------------------------------------------------------------------------------------

  /** The run that ends in a spin: long turns elsewhere hold all permits but one, and the last permit goes
      through a crowd on one profile. */
  lemma ReachSpin(max: nat) returns (es: seq<Event>, p: nat, x: TaskId, y: TaskId, z: TaskId)
    requires max >= 1
    ensures ValidRun(Init(max), es) && Spinning(Run(Init(max), es), p, x, y, z)
    ensures |InboundRoutes(Run(Init(max), es))| <= max + 2 && Lines(Run(Init(max), es), [x, z])
  {
    hide Step, Enabled, OwnRoutes, Tidy, Good, Spinning, Crowd, OneRunsTwoWait, InboundRoutes;
    var b := max - 1;
    var es0 := LongRunners(Init(max), 0, b);
    var s0 := Run(Init(max), es0);
    var es1 := ThreeWait(s0, b);
    var s1 := Run(s0, es1);
    FirstWaiterRuns(s1, b);
    ThenSpin(Step(Step(s1, Finish(b)), Resume(b + 1, false)), b, b + 1);
    var es2 := FourSteps(s1, Finish(b), Resume(b + 1, false), Start(b + 4, Inbound, b + 4, b + 1, false), Finish(b + 1));
    RunAppend(s0, es1, es2);
    RunAppend(Init(max), es0, es1 + es2);
    es := es0 + (es1 + es2);
    p, x, y, z := b + 1, b + 2, b + 3, b + 4;
    OwnRoutesTogether(es1, es2);
    OwnRoutesTogether(es0, es1 + es2);
    InitIsTidy(max);
    RunIsTidy(Init(max), es);
    FewRoutes(Run(Init(max), es), b);
  }

  /** Livelock: for every number of permits, `max + 2` routes are enough for the idle router to get into a
      state from which resumptions alone, in the order of the event loop, go on for ever without a turn running. */
  lemma GateCanSpin(max: nat)
    requires max >= 1
    ensures exists es: seq<Event> ::
      && ValidRun(Init(max), es) && |InboundRoutes(Run(Init(max), es))| <= max + 2
      && forall k: nat :: exists fs: seq<Event> :: |fs| == 2 * k && IdleRun(Run(Init(max), es), fs)
                            && exists ready: seq<TaskId> :: FifoRun(Run(Init(max), es), ready, fs)
  {
    hide Step, Enabled;
    var es, p, x, y, z := ReachSpin(max);
    var s := Run(Init(max), es);
    forall k: nat ensures exists fs: seq<Event> ::
      |fs| == 2 * k && IdleRun(s, fs) && exists ready: seq<TaskId> :: FifoRun(s, ready, fs)
    {
      SpinsForEver(s, p, x, y, z, k);
      SpinIsFifo(s, p, x, y, z, k);
      assert IdleRun(s, SpinRounds(k, x, y, z));
    }
  }

  // ---------------------------------------------------------------------------------------------
  // Why a claim has to look at the waiters
  // ---------------------------------------------------------------------------------------------

  /** Turn `x` comes back from its capacity wait and finds lock `n` unlocked. If it took it for that alone, the woken
      `z` would, on its own next resumption, take it as well. */
  ghost predicate UnlockedAndSpokenFor(s: State, n: LockName, x: TaskId, z: TaskId) {
    && x != z && Enabled(s, Resume(x, false)) && s.tasks[x].awaiting == OnPermit && n == ProfileLock(s.tasks[x].profile)
    && var found := ResumePermit(s, x);
    && found.tasks[x].hasPermit && !GetLock(found, n).locked && !Claimable(found, n)
    && var claimed := Claim(found, n, x);
    && Enabled(claimed, Resume(z, false)) && claimed.tasks[z].awaiting == OnLock(n)
    && var both := ResumeAcquire(claimed, n, z);
    && Holds(both.tasks[x], n) && Holds(both.tasks[z], n)
  }

  lemma SpinningIsSpokenFor(s: State, p: nat, x: TaskId, y: TaskId, z: TaskId)
    requires Spinning(s, p, x, y, z)
    ensures UnlockedAndSpokenFor(s, ProfileLock(p), x, z)
  {
    assert Without([x, y], x) == [y];
    var found := ResumePermit(s, x);
    assert found == LeavePermitQueue(s, x);
    assert z in GetLock(found, ProfileLock(p)).waiters && FutOf(found, z) == Woken;
  }

  /** For every number of permits a run from the idle router gets there, so the gate's direct claim needs its look at
      the lock's waiters. */
  lemma WaiterCheckIsNeeded(max: nat)
    requires max >= 1
    ensures exists es: seq<Event>, n: LockName, x: TaskId, z: TaskId ::
      ValidRun(Init(max), es) && UnlockedAndSpokenFor(Run(Init(max), es), n, x, z)
  {
    hide *;
    var es, p, x, y, z := ReachSpin(max);
    SpinningIsSpokenFor(Run(Init(max), es), p, x, y, z);
    assert ValidRun(Init(max), es) && UnlockedAndSpokenFor(Run(Init(max), es), ProfileLock(p), x, z);
  }
}
