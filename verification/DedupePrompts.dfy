/** How often an identity is prompted. */
module DedupePrompts {
  import opened Options
  import opened DedupeStore
  import opened DedupeClaims
  import opened DedupeOwnership

  /** From its prompt on, a turn is followed by its finalizer to the handled row. */
  predicate PastPrompt(a: Agent) {
    match a
    case Turn(i) => i.phase.Prompting?
    case Job(i) => i.kind.ToMark?
  }

  ghost predicate Consumed(s: State, id: Id) {
    IsHandled(s.table, id) || exists a :: a in Owners(s, id) && PastPrompt(s.agents[a])
  }

  predicate Carries(a: Agent, id: Id) { a.Turn? && id in a.turn.ids }

  ghost predicate SignalOnly(s: State, id: Id) {
    forall a :: a in s.agents && Carries(s.agents[a], id) ==> s.agents[a].turn.origin.Signal?
  }

  /** What can make an identity claimable again after its prompt: a turn that is cancelled or lets an exception
      escape after its prompt started, a crash in that time, the prune of its handled row, or its use as the
      identity of a synthetic turn, which releases on failure so that it can be retried. */
  ghost predicate Loses(s: State, e: Event, id: Id) {
    match e
    case Admit(_, origin, ids) => origin.Synthetic? && id in ids
    case End(t, outcome, _, _) => (outcome.Cancelled? || outcome.Escaped?) && t in s.agents && Carries(s.agents[t], id)
    case Crash => Consumed(s, id) && !IsHandled(s.table, id)
    case Prune(_, gone) => id in gone
    case _ => false
  }

  ghost predicate NothingLost(s: State, es: seq<Event>, id: Id)
    requires ValidRun(s, es)
    decreases |es|
  {
    es == [] || (!Loses(s, es[0], id) && NothingLost(Step(s, es[0]), es[1..], id))
  }

  /** Compared with the start of the run, the identity was not prompted, or once and then consumed. */
  ghost predicate AtMostOnce(s: State, id: Id, before: nat) {
    s.prompts[id] == before || (s.prompts[id] == before + 1 && Consumed(s, id))
  }

  lemma SignalOnlyStays(s: State, e: Event, id: Id)
    requires SignalOnly(s, id) && Enabled(s, e) && !Loses(s, e, id)
    ensures SignalOnly(Step(s, e), id)
  {
    hide Consumed;
    var s' := Step(s, e);
    forall a | a in s'.agents && Carries(s'.agents[a], id) ensures s'.agents[a].turn.origin.Signal? {
      if e.Return? || e.CancelClaim? || e.End? {
        StepTurns(s, e, a);
      }
    }
  }

  /** `a` is a turn of both states, with the same origin and identities. */
  predicate SameCarrier(s: State, s': State, a: AgentId) {
    && IsTurn(s, a) && IsTurn(s', a)
    && s'.agents[a].turn.origin == s.agents[a].turn.origin && s'.agents[a].turn.ids == s.agents[a].turn.ids
  }

  lemma FinalizeTurns(s: State, t: AgentId, handled: bool, j1: AgentId, j2: AgentId, a: AgentId)
    requires IsTurn(s, t) && TwoFree(s, j1, j2)
    ensures var s' := Finalize(s, t, handled, j1, j2);
      && (IsTurn(s', a) ==> SameCarrier(s, s', a))
      && (a in s.agents && a != t ==> a in s'.agents && s'.agents[a] == s.agents[a])
  {
  }

  lemma ResumedTurns(s: State, t: AgentId, a: AgentId)
    requires IsAwaiting(s, t)
    ensures var s' := Resumed(s, t);
      && IsTurn(s', t)
      && (IsTurn(s', a) ==> SameCarrier(s, s', a))
      && (a in s.agents && a != t && a != s.agents[t].turn.phase.job ==> a in s'.agents && s'.agents[a] == s.agents[a])
  {
  }

  lemma DetachedTurns(s: State, t: AgentId, a: AgentId)
    requires IsAwaiting(s, t)
    ensures var s' := Detached(s, t);
      && s'.agents.Keys == s.agents.Keys
      && IsTurn(s', t)
      && (IsTurn(s', a) ==> SameCarrier(s, s', a))
      && (a in s.agents && a != t && a != s.agents[t].turn.phase.job ==> a in s'.agents && s'.agents[a] == s.agents[a])
  {
  }

  lemma StepTurns(s: State, e: Event, a: AgentId)
    requires Enabled(s, e) && (e.Return? || e.CancelClaim? || e.End?) && IsTurn(Step(s, e), a)
    ensures SameCarrier(s, Step(s, e), a)
  {
    hide Finalize, Resumed, Detached;
    match e
    case Return(t, j1, j2) =>
      ResumedTurns(s, t, a);
      if s.agents[s.agents[t].turn.phase.job].job.answer != Some(true) {
        ResumedFree(s, t, j1, j2);
        FinalizeTurns(Resumed(s, t), t, false, j1, j2, a);
      }
    case CancelClaim(t, j1, j2) =>
      DetachedTurns(s, t, a);
      FinalizeTurns(Detached(s, t), t, false, j1, j2, a);
    case End(t, outcome, j1, j2) =>
      FinalizeTurns(s, t, Settles(s.agents[t].turn.origin, outcome), j1, j2, a);
  }

  /** Whoever owns the identity of a finalized turn is now its finalizer. */
  lemma FinalizerConsumes(s: State, t: AgentId, j1: AgentId, j2: AgentId, id: Id)
    requires Inv(s) && IsTurn(s, t) && TwoFree(s, j1, j2) && !s.agents[t].turn.phase.Finished?
    requires t in Owners(s, id)
    ensures Consumed(Finalize(s, t, true, j1, j2), id)
  {
    assert GoodAgent(s, t);
    var i := s.agents[t].turn;
    var s' := Finalize(s, t, true, j1, j2);
    OwnersFinalized(s, t, true, j1, j2, id);
    if id == i.ids[0] {
      assert j1 in Owners(s', id) && PastPrompt(s'.agents[j1]);
    } else {
      assert j2 in Owners(s', id) && PastPrompt(s'.agents[j2]);
    }
  }

  lemma OtherOwnerStays(s: State, s': State, a: AgentId, id: Id)
    requires a in Owners(s, id) && PastPrompt(s.agents[a]) && a in s'.agents && s'.agents[a] == s.agents[a]
    ensures Consumed(s', id)
  {
    assert a in Owners(s', id);
  }

  lemma ConsumedStays(s: State, e: Event, id: Id)
    requires Inv(s) && SignalOnly(s, id) && Enabled(s, e) && !Loses(s, e, id) && Consumed(s, id)
    ensures Consumed(Step(s, e), id)
  {
    var s' := Step(s, e);
    if IsHandled(s.table, id) {
      HandledRowsStay(s, e, id);
    } else {
      var a :| a in Owners(s, id) && PastPrompt(s.agents[a]);
      if e.End? && e.t == a {
        assert s.agents[a].turn.origin.Signal?;
        FinalizerConsumes(s, a, e.j1, e.j2, id);
      } else if e.Commit? && e.j == a {
        assert IsHandled(s'.table, id);
      } else if e.Crash? {
      } else {
        assert GoodAgent(s, a);
        UntouchedStays(s, e, a);
        OtherOwnerStays(s, s', a, id);
      }
    }
  }

  lemma UntouchedStays(s: State, e: Event, a: AgentId)
    requires Inv(s) && Enabled(s, e) && a in s.agents && PastPrompt(s.agents[a]) && !e.Crash?
    requires !(e.End? && e.t == a) && !(e.Commit? && e.j == a)
    ensures a in Step(s, e).agents && Step(s, e).agents[a] == s.agents[a]
  {
    hide Finalize, Resumed, Detached, Owned;
    match e
    case Return(t, j1, j2) =>
      assert GoodAgent(s, t);
      ResumedTurns(s, t, a);
      if s.agents[s.agents[t].turn.phase.job].job.answer != Some(true) {
        ResumedFree(s, t, j1, j2);
        FinalizeTurns(Resumed(s, t), t, false, j1, j2, a);
      }
    case CancelClaim(t, j1, j2) =>
      assert GoodAgent(s, t);
      DetachedTurns(s, t, a);
      FinalizeTurns(Detached(s, t), t, false, j1, j2, a);
    case End(t, outcome, j1, j2) =>
      FinalizeTurns(s, t, Settles(s.agents[t].turn.origin, outcome), j1, j2, a);
    case _ =>
  }

  lemma PromptsOnce(s: State, t: AgentId, id: Id, before: nat)
    requires Inv(s) && InPhase(s, t, Running) && AtMostOnce(s, id, before)
    ensures AtMostOnce(Step(s, StartPrompt(t)), id, before)
  {
    var s' := Step(s, StartPrompt(t));
    var i := s.agents[t].turn;
    assert GoodAgent(s, t);
    assert i.ids[..i.claimed] == i.ids;
    if id in i.ids {
      assert t in Owners(s, id);
      assert OneOwner(s, id);
      OwnerIsOnly(s, id, t);
      assert !Consumed(s, id);
      CountOnce(i.ids, id);
      assert t in Owners(s', id) && PastPrompt(s'.agents[t]);
    } else {
      assert multiset(i.ids)[id] == 0;
      if Consumed(s, id) && !IsHandled(s.table, id) {
        var a :| a in Owners(s, id) && PastPrompt(s.agents[a]);
        OtherOwnerStays(s, s', a, id);
      }
    }
  }

  lemma CountOnce(ids: seq<Id>, id: Id)
    requires Distinct(ids) && id in ids
    ensures multiset(ids)[id] == 1
  {
    if |ids| == 1 {
      assert ids == [ids[0]];
    } else {
      assert ids == [ids[0], ids[1]];
    }
  }

  lemma OnlyPromptsPrompt(s: State, e: Event)
    requires Enabled(s, e) && !e.StartPrompt?
    ensures Step(s, e).prompts == s.prompts
  {
  }

  lemma StepOnce(s: State, e: Event, id: Id, before: nat)
    requires Inv(s) && SignalOnly(s, id) && Enabled(s, e) && !Loses(s, e, id) && AtMostOnce(s, id, before)
    ensures AtMostOnce(Step(s, e), id, before)
  {
    hide Inv, SignalOnly, Loses, Consumed, Step;
    if e.StartPrompt? {
      PromptsOnce(s, e.t, id, before);
    } else {
      OnlyPromptsPrompt(s, e);
      if Consumed(s, id) {
        ConsumedStays(s, e, id);
      }
    }
  }

  lemma {:induction false} RunOnce(s: State, es: seq<Event>, id: Id, before: nat)
    requires Inv(s) && SignalOnly(s, id) && ValidRun(s, es) && NothingLost(s, es, id) && AtMostOnce(s, id, before)
    ensures AtMostOnce(Run(s, es), id, before)
    decreases |es|
  {
    hide Inv, SignalOnly, AtMostOnce, Loses, Step, Enabled;
    if es != [] {
      StepKeeps(s, es[0]);
      SignalOnlyStays(s, es[0], id);
      StepOnce(s, es[0], id, before);
      RunOnce(Step(s, es[0]), es[1..], id, before);
    }
  }

  /** Over any stretch of any run, however turns, jobs, cancellations, crashes and prunes of other rows interleave, a
      Signal identity is prompted at most once unless something in the stretch made it claimable again. */
  lemma AtMostOnePrompt(s: State, es: seq<Event>, id: Id)
    requires Inv(s) && SignalOnly(s, id) && ValidRun(s, es) && NothingLost(s, es, id)
    ensures s.prompts[id] <= Run(s, es).prompts[id] <= s.prompts[id] + 1
  {
    RunOnce(s, es, id, s.prompts[id]);
  }

  /** So from the start of the process on, whatever the table holds, it is prompted at most once. */
  lemma AtMostOnePromptEver(persisted: Table, es: seq<Event>, id: Id)
    requires ValidRun(Init(persisted), es) && NothingLost(Init(persisted), es, id)
    ensures Run(Init(persisted), es).prompts[id] <= 1
  {
    AtMostOnePrompt(Init(persisted), es, id);
  }

  // ---------------------------------------------------------------------------------------------
  // The exception is real
  // ---------------------------------------------------------------------------------------------

  ghost predicate Below(s: State, n: nat) { forall a :: a in s.agents ==> a < n }

  lemma RunOne(s: State, e: Event, es: seq<Event>)
    requires Enabled(s, e) && ValidRun(Step(s, e), es)
    ensures ValidRun(s, [e] + es) && Run(s, [e] + es) == Run(Step(s, e), es)
  {
    assert ([e] + es)[1..] == es;
  }

  /** A new turn of one free identity reaches its prompt. */
  function Admitted(n: nat, id: Id): Event { Admit(n, Signal, [id]) }

  ghost predicate ClaimedBy(s: State, s': State, n: nat, id: Id, now: int) {
    && s'.table == s.table[id := Row(Processing, now)] && s'.prompts == s.prompts
    && s'.agents == s.agents[n := Turn(TurnInfo(Signal, [id], 0, Awaiting(n + 1)))]
                            [n + 1 := Job(JobInfo(ToClaim, n, id, Some(true), false))]
  }

  ghost predicate Prompted(s: State, s': State, n: nat, id: Id, now: int) {
    && s'.table == s.table[id := Row(Processing, now)]
    && s'.agents == s.agents[n := Turn(TurnInfo(Signal, [id], 1, Prompting))]
    && s'.prompts[id] == s.prompts[id] + 1
  }

  lemma PromptWorks(s: State, n: nat, id: Id, now: int, s3: State)
    requires Below(s, n) && ClaimedBy(s, s3, n, id, now)
    ensures Enabled(s3, Return(n, n + 2, n + 3)) && Enabled(Step(s3, Return(n, n + 2, n + 3)), StartPrompt(n))
    ensures Prompted(s, Step(Step(s3, Return(n, n + 2, n + 3)), StartPrompt(n)), n, id, now)
  {
    var s4 := Step(s3, Return(n, n + 2, n + 3));
    assert s4.agents == s.agents[n := Turn(TurnInfo(Signal, [id], 1, Running))];
  }

  function PromptRun(n: nat, id: Id, now: int): seq<Event> {
    [Admitted(n, id)] + ([Dispatch(n, n + 1)] + ([Commit(n + 1, now)] + ([Return(n, n + 2, n + 3)] + ([StartPrompt(n)] + []))))
  }

  lemma PromptRunWorks(s: State, n: nat, id: Id, now: int)
    requires Below(s, n) && id !in s.table
    ensures ValidRun(s, PromptRun(n, id, now)) && Prompted(s, Run(s, PromptRun(n, id, now)), n, id, now)
  {
    var s1 := Step(s, Admitted(n, id));
    var s2 := Step(s1, Dispatch(n, n + 1));
    var s3 := Step(s2, Commit(n + 1, now));
    PromptWorks(s, n, id, now, s3);
    var s4 := Step(s3, Return(n, n + 2, n + 3));
    var s5 := Step(s4, StartPrompt(n));
    hide Step, Enabled;
    assert ValidRun(s5, []) && Run(s5, []) == s5;
    hide ValidRun, Run;
    RunOne(s4, StartPrompt(n), []);
    RunOne(s3, Return(n, n + 2, n + 3), [StartPrompt(n)] + []);
    RunOne(s2, Commit(n + 1, now), [Return(n, n + 2, n + 3)] + ([StartPrompt(n)] + []));
    RunOne(s1, Dispatch(n, n + 1), [Commit(n + 1, now)] + ([Return(n, n + 2, n + 3)] + ([StartPrompt(n)] + [])));
    RunOne(s, Admitted(n, id),
           [Dispatch(n, n + 1)] + ([Commit(n + 1, now)] + ([Return(n, n + 2, n + 3)] + ([StartPrompt(n)] + []))));
  }

  lemma CancelReleases(s: State, s': State, n: nat, id: Id, now: int)
    requires Below(s, n) && Prompted(s, s', n, id, now)
    ensures Enabled(s', End(n, Cancelled, n + 1, n + 2))
    ensures Enabled(Step(s', End(n, Cancelled, n + 1, n + 2)), Commit(n + 1, now))
    ensures var s2 := Step(Step(s', End(n, Cancelled, n + 1, n + 2)), Commit(n + 1, now));
      id !in s2.table && Below(s2, n + 2) && s2.prompts == s'.prompts
  {
  }

  ghost predicate NoCrashNoPrune(es: seq<Event>) { forall e :: e in es ==> !e.Crash? && !e.Prune? }

  lemma NoCrashInPromptRun(n: nat, id: Id, now: int)
    ensures NoCrashNoPrune(PromptRun(n, id, now))
  {
  }

  lemma NoCrashTogether(es: seq<Event>, e1: Event, e2: Event, fs: seq<Event>)
    requires NoCrashNoPrune(es) && NoCrashNoPrune(fs) && !e1.Crash? && !e1.Prune? && !e2.Crash? && !e2.Prune?
    ensures NoCrashNoPrune(es + ([e1] + ([e2] + fs)))
  {
  }

  /** The proviso is needed: a turn that is cancelled after its prompt started releases its identity, and the
      redelivered event is prompted again, from any state in which the identity is free. */
  lemma CancelledPromptRepeats(s: State, n: nat, id: Id, now: int) returns (es: seq<Event>)
    requires Below(s, n) && id !in s.table
    ensures ValidRun(s, es) && NoCrashNoPrune(es)
    ensures Run(s, es).prompts[id] == s.prompts[id] + 2
  {
    hide Step, Enabled, ValidRun, Run, PromptRun, NoCrashNoPrune;
    PromptRunWorks(s, n, id, now);
    var first := PromptRun(n, id, now);
    var s1 := Run(s, first);
    CancelReleases(s, s1, n, id, now);
    var e1, e2 := End(n, Cancelled, n + 1, n + 2), Commit(n + 1, now);
    var s2 := Step(s1, e1);
    var s3 := Step(s2, e2);
    var second := PromptRun(n + 2, id, now);
    PromptRunWorks(s3, n + 2, id, now);
    RunOne(s2, e2, second);
    RunOne(s1, e1, [e2] + second);
    RunsTogether(s, first, [e1] + ([e2] + second));
    es := first + ([e1] + ([e2] + second));
    NoCrashInPromptRun(n, id, now);
    NoCrashInPromptRun(n + 2, id, now);
    NoCrashTogether(first, e1, e2, second);
  }

  lemma {:induction false} RunsTogether(s: State, es: seq<Event>, fs: seq<Event>)
    requires ValidRun(s, es) && ValidRun(Run(s, es), fs)
    ensures ValidRun(s, es + fs) && Run(s, es + fs) == Run(Run(s, es), fs)
    decreases |es|
  {
    hide Step, Enabled;
    if es == [] {
      assert es + fs == fs;
    } else {
      var rest := es[1..] + fs;
      RunsTogether(Step(s, es[0]), es[1..], fs);
      hide Run, ValidRun;
      assert es + fs == [es[0]] + rest;
      RunOne(s, es[0], rest);
    }
  }
}
