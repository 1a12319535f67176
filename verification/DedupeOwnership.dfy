/** Every processing row has exactly one owner, and nobody releases a claim of another turn. */
module DedupeOwnership {
  import opened Options
  import opened DedupeStore
  import opened DedupeClaims

  /** A live turn owns what it claimed, a claim that is committed and not yet seen by its turn belongs to its job, and
      a finalizer owns its row until it is committed. */
  predicate Owns(a: Agent, id: Id) {
    match a
    case Turn(i) => !i.phase.Finished? && i.claimed <= |i.ids| && id in i.ids[..i.claimed]
    case Job(i) => i.id == id && (i.kind.ToClaim? ==> i.answer == Some(true))
  }

  function Owners(s: State, id: Id): set<AgentId> { set a | a in s.agents && Owns(s.agents[a], id) }

  function TurnOf(s: State, a: AgentId): AgentId
    requires a in s.agents
  {
    if s.agents[a].Turn? then a else s.agents[a].job.turn
  }

  ghost predicate OneOwner(s: State, id: Id) {
    if IsProcessing(s.table, id) then
      exists a :: Owners(s, id) == {a} && id in s.claimers && a in s.agents && s.claimers[id] == TurnOf(s, a)
    else Owners(s, id) == {}
  }

  predicate Distinct(ids: seq<Id>) { |ids| <= 2 && (|ids| == 2 ==> ids[0] != ids[1]) }

  predicate GoodTurn(s: State, t: AgentId, i: TurnInfo) {
    && i.claimed <= |i.ids| <= 2 && Distinct(i.ids[..i.claimed])
    && (i.phase.Claiming? || i.phase.Awaiting? ==> i.claimed < |i.ids|)
    && (i.phase.Running? || i.phase.Prompting? ==> i.claimed == |i.ids|)
    && (i.phase.Awaiting? ==> IsJob(s, i.phase.job) && Serves(s.agents[i.phase.job].job, t, i.ids[i.claimed]))
  }

  predicate Serves(w: JobInfo, t: AgentId, id: Id) {
    w.kind.ToClaim? && w.turn == t && w.id == id && !w.abandoned
  }

  predicate GoodJob(s: State, j: AgentId, i: JobInfo) {
    if i.kind.ToClaim? then !i.abandoned ==> InPhase(s, i.turn, Awaiting(j))
    else i.answer == None
  }

  predicate GoodAgent(s: State, a: AgentId)
    requires a in s.agents
  {
    match s.agents[a]
    case Turn(i) => GoodTurn(s, a, i)
    case Job(i) => GoodJob(s, a, i)
  }

  ghost predicate Good(s: State) { forall a :: a in s.agents ==> GoodAgent(s, a) }

  ghost predicate Owned(s: State) { forall id :: OneOwner(s, id) }

  ghost predicate Inv(s: State) { Good(s) && Owned(s) }

  // ---------------------------------------------------------------------------------------------
  // What can happen to the owner of one identity
  // ---------------------------------------------------------------------------------------------

  ghost predicate SameRow(s: State, s': State, id: Id) {
    && IsProcessing(s'.table, id) == IsProcessing(s.table, id)
    && (id in s.claimers ==> id in s'.claimers && s'.claimers[id] == s.claimers[id])
  }

  /** The owner, if any, stays. */
  lemma Stays(s: State, s': State, id: Id)
    requires OneOwner(s, id) && SameRow(s, s', id) && Owners(s', id) == Owners(s, id)
    requires forall a :: a in Owners(s, id) ==> a in s'.agents && TurnOf(s', a) == TurnOf(s, a)
    ensures OneOwner(s', id)
  {
    if IsProcessing(s.table, id) {
      var a :| Owners(s, id) == {a} && a in s.agents && id in s.claimers && s.claimers[id] == TurnOf(s, a);
      assert a in Owners(s, id);
      assert Owners(s', id) == {a};
    }
  }

  /** The row goes from one owner to another one that acts for the same turn. */
  lemma Moves(s: State, s': State, id: Id, a: AgentId, b: AgentId)
    requires OneOwner(s, id) && SameRow(s, s', id)
    requires a in Owners(s, id) && Owners(s', id) == {b} && b in s'.agents && TurnOf(s', b) == TurnOf(s, a)
    ensures OneOwner(s', id)
  {
    OwnerIsOnly(s, id, a);
  }

  lemma OwnerIsOnly(s: State, id: Id, a: AgentId)
    requires OneOwner(s, id) && a in Owners(s, id)
    ensures Owners(s, id) == {a} && IsProcessing(s.table, id)
    ensures id in s.claimers && s.claimers[id] == TurnOf(s, a)
  {
    hide Owners;
    if IsProcessing(s.table, id) {
      var b :| Owners(s, id) == {b} && b in s.agents && id in s.claimers && s.claimers[id] == TurnOf(s, b);
      assert a == b;
    }
  }

  // ---------------------------------------------------------------------------------------------
  // Owners under the primitive updates
  // ---------------------------------------------------------------------------------------------

  function One(a: AgentId, owns: bool): set<AgentId> { if owns then {a} else {} }

  lemma OwnersSet(s: State, s': State, a: AgentId, g: Agent, id: Id)
    requires s'.agents == s.agents[a := g]
    ensures Owners(s', id) == Owners(s, id) - {a} + One(a, Owns(g, id))
  {
  }

  lemma OwnersWithout(s: State, s': State, a: AgentId, id: Id)
    requires s'.agents == s.agents - {a}
    ensures Owners(s', id) == Owners(s, id) - {a}
  {
  }

  // ---------------------------------------------------------------------------------------------
  // The steps
  // ---------------------------------------------------------------------------------------------

  /** An agent appears or changes without a change in what it owns. */
  lemma ChangeKeepsOwned(s: State, s': State, a: AgentId, g: Agent)
    requires Owned(s) && s'.table == s.table && s'.claimers == s.claimers && s'.agents == s.agents[a := g]
    requires forall id :: Owns(g, id) <==> a in Owners(s, id)
    requires a in s.agents ==> g.Turn? == s.agents[a].Turn? && (g.Job? ==> g.job.turn == s.agents[a].job.turn)
    ensures Owned(s')
  {
    hide Owns;
    forall id ensures OneOwner(s', id) {
      OwnersSet(s, s', a, g, id);
      assert Owners(s', id) == Owners(s, id);
      Stays(s, s', id);
    }
  }

  /** An agent that owns nothing goes. */
  lemma DropKeepsOwned(s: State, s': State, a: AgentId)
    requires Owned(s) && s'.table == s.table && s'.claimers == s.claimers && s'.agents == s.agents - {a}
    requires forall id :: a !in Owners(s, id)
    ensures Owned(s')
  {
    hide Owns;
    forall id ensures OneOwner(s', id) {
      OwnersWithout(s, s', a, id);
      assert Owners(s', id) == Owners(s, id);
      Stays(s, s', id);
    }
  }

  lemma AdmitKeeps(s: State, t: AgentId, origin: Origin, ids: seq<Id>)
    requires Inv(s) && Enabled(s, Admit(t, origin, ids))
    ensures Inv(Step(s, Admit(t, origin, ids)))
  {
    var g := Turn(TurnInfo(origin, ids, 0, Claiming));
    assert forall id :: !Owns(g, id);
    ChangeKeepsOwned(s, Step(s, Admit(t, origin, ids)), t, g);
  }

  lemma DispatchKeeps(s: State, t: AgentId, j: AgentId)
    requires Inv(s) && Enabled(s, Dispatch(t, j))
    ensures Inv(Step(s, Dispatch(t, j)))
  {
    var s1 := ToPhase(s, t, Awaiting(j));
    var s' := Step(s, Dispatch(t, j));
    assert GoodAgent(s, t);
    var i := s.agents[t].turn;
    ChangeKeepsOwned(s, s1, t, Turn(i.(phase := Awaiting(j))));
    var g := Job(NewJob(ToClaim, t, i.ids[i.claimed]));
    assert forall id :: !Owns(g, id);
    assert j !in s1.agents;
    ChangeKeepsOwned(s1, s', j, g);
    forall a | a in s'.agents ensures GoodAgent(s', a) {
      if a != t && a != j {
        assert GoodAgent(s, a);
      }
    }
  }

  lemma CommitKeepsOwned(s: State, j: AgentId, now: int)
    requires Inv(s) && Enabled(s, Commit(j, now))
    ensures Owned(Step(s, Commit(j, now)))
  {
    var s' := Step(s, Commit(j, now));
    var i := s.agents[j].job;
    assert GoodAgent(s, j);
    forall id ensures OneOwner(s', id) {
      assert OneOwner(s, id);
      if i.kind.ToClaim? {
        var g := s'.agents[j];
        OwnersSet(s, s', j, g, id);
        if i.id !in s.table && id == i.id {
          assert Owners(s, id) == {};
          assert Owners(s', id) == {j};
        } else {
          assert Owners(s', id) == Owners(s, id);
          Stays(s, s', id);
        }
      } else {
        OwnersWithout(s, s', j, id);
        if id == i.id {
          OwnerIsOnly(s, id, j);
          assert Owners(s', id) == {};
        } else {
          assert Owners(s', id) == Owners(s, id);
          Stays(s, s', id);
        }
      }
    }
  }

  lemma CommitKeeps(s: State, j: AgentId, now: int)
    requires Inv(s) && Enabled(s, Commit(j, now))
    ensures Inv(Step(s, Commit(j, now)))
  {
    var s' := Step(s, Commit(j, now));
    CommitKeepsOwned(s, j, now);
    assert forall a :: a in s'.agents ==> a in s.agents;
    hide Owned, Committed;
    forall a | a in s'.agents ensures GoodAgent(s', a) {
      assert GoodAgent(s, j) && GoodAgent(s, a);
      CommittedAgent(s, j, now, a);
    }
  }

  lemma CommittedAgent(s: State, j: AgentId, now: int, a: AgentId)
    requires IsJob(s, j) && s.agents[j].job.answer == None && a in Committed(s, j, now).agents
    requires a in s.agents && GoodAgent(s, j) && GoodAgent(s, a)
    ensures GoodAgent(Committed(s, j, now), a)
  {
    hide Distinct, Claimed, Marked, Released;
  }

  lemma ResumedKeepsOwned(s: State, t: AgentId)
    requires Inv(s) && IsAwaiting(s, t) && s.agents[s.agents[t].turn.phase.job].job.answer.Some?
    ensures Owned(Resumed(s, t))
  {
    var i := s.agents[t].turn;
    var j := i.phase.job;
    assert GoodAgent(s, t) && GoodAgent(s, j);
    var won := s.agents[j].job.answer == Some(true);
    var s1 := Without(s, j);
    var s' := Resumed(s, t);
    var g := s'.agents[t];
    var mine := i.ids[i.claimed];
    forall id ensures OneOwner(s', id) {
      OwnersWithout(s, s1, j, id);
      OwnersSet(s1, s', t, g, id);
      assert OneOwner(s, id);
      if won && id == mine {
        assert j in Owners(s, id);
        OwnerIsOnly(s, id, j);
        assert i.ids[..i.claimed + 1][i.claimed] == id;
        assert Owners(s', id) == {t};
        Moves(s, s', id, j, t);
      } else {
        assert won ==> i.ids[..i.claimed + 1] == i.ids[..i.claimed] + [mine];
        assert Owns(g, id) == Owns(s.agents[t], id);
        assert Owners(s', id) == Owners(s, id);
        Stays(s, s', id);
      }
    }
  }

  lemma ResumedKeeps(s: State, t: AgentId)
    requires Inv(s) && IsAwaiting(s, t) && s.agents[s.agents[t].turn.phase.job].job.answer.Some?
    ensures Inv(Resumed(s, t)) && IsTurn(Resumed(s, t), t) && !Resumed(s, t).agents[t].turn.phase.Finished?
    ensures !Resumed(s, t).agents[t].turn.phase.Awaiting?
  {
    ResumedKeepsOwned(s, t);
    var i := s.agents[t].turn;
    var j := i.phase.job;
    var s' := Resumed(s, t);
    assert GoodAgent(s, t) && GoodAgent(s, j);
    var won := s.agents[j].job.answer == Some(true);
    if won && i.claimed == 1 {
      assert OneOwner(s, i.ids[1]);
      OwnerIsOnly(s, i.ids[1], j);
      assert t !in Owners(s, i.ids[1]);
      assert i.ids[0] in i.ids[..1];
    }
    hide Owned;
    forall a | a in s'.agents ensures GoodAgent(s', a) {
      assert GoodAgent(s, a);
    }
  }

  lemma DetachedKeeps(s: State, t: AgentId)
    requires Inv(s) && IsAwaiting(s, t)
    ensures Inv(Detached(s, t)) && InPhase(Detached(s, t), t, Claiming)
    ensures forall a :: a in s.agents <==> a in Detached(s, t).agents
  {
    var i := s.agents[t].turn;
    var j := i.phase.job;
    var s1, s' := ToPhase(s, t, Claiming), Detached(s, t);
    assert GoodAgent(s, t) && GoodAgent(s, j);
    assert t != j;
    ChangeKeepsOwned(s, s1, t, Turn(i.(phase := Claiming)));
    ChangeKeepsOwned(s1, s', j, Job(s.agents[j].job.(abandoned := true)));
    hide Owned;
    forall a | a in s'.agents ensures GoodAgent(s', a) {
      assert GoodAgent(s, a);
    }
  }

  lemma OwnersFinalized(s: State, t: AgentId, handled: bool, j1: AgentId, j2: AgentId, id: Id)
    requires IsTurn(s, t) && TwoFree(s, j1, j2) && s.agents[t].turn.claimed <= |s.agents[t].turn.ids| <= 2
    ensures var i := s.agents[t].turn;
      Owners(Finalize(s, t, handled, j1, j2), id)
      == Owners(s, id) - {t} + One(j1, i.claimed >= 1 && id == i.ids[0]) + One(j2, i.claimed >= 2 && id == i.ids[1])
  {
    var i := s.agents[t].turn;
    var kind := if handled then ToMark else ToRelease;
    var s0 := ToPhase(s, t, Finished);
    var s1 := if i.claimed >= 1 then WithJob(s0, j1, NewJob(kind, t, i.ids[0])) else s0;
    var s' := Finalize(s, t, handled, j1, j2);
    OwnersSet(s, s0, t, s0.agents[t], id);
    assert j1 !in Owners(s, id) && j2 !in Owners(s, id);
    if i.claimed >= 1 {
      OwnersSet(s0, s1, j1, s1.agents[j1], id);
    }
    if i.claimed >= 2 {
      OwnersSet(s1, s', j2, s'.agents[j2], id);
    }
  }

  lemma FinalizeMoves(s: State, t: AgentId, handled: bool, j1: AgentId, j2: AgentId, id: Id)
    requires Inv(s) && IsTurn(s, t) && TwoFree(s, j1, j2) && !s.agents[t].turn.phase.Finished?
    ensures OneOwner(Finalize(s, t, handled, j1, j2), id)
  {
    var i := s.agents[t].turn;
    assert GoodAgent(s, t) && OneOwner(s, id);
    OwnersFinalized(s, t, handled, j1, j2, id);
    var s' := Finalize(s, t, handled, j1, j2);
    if id in i.ids[..i.claimed] {
      assert t in Owners(s, id);
      OwnerIsOnly(s, id, t);
      var j := if id == i.ids[0] then j1 else j2;
      assert i.claimed >= 2 ==> i.ids[..i.claimed][0] != i.ids[..i.claimed][1];
      assert Owners(s', id) == {j};
      Moves(s, s', id, t, j);
    } else {
      assert t !in Owners(s, id);
      assert i.claimed >= 1 ==> i.ids[..i.claimed][0] == i.ids[0];
      assert i.claimed >= 2 ==> i.ids[..i.claimed][1] == i.ids[1];
      assert Owners(s', id) == Owners(s, id);
      assert forall a :: a in Owners(s, id) ==> a in s'.agents && s'.agents[a] == s.agents[a];
      Stays(s, s', id);
    }
  }

  lemma FinalizeKeeps(s: State, t: AgentId, handled: bool, j1: AgentId, j2: AgentId)
    requires Inv(s) && IsTurn(s, t) && TwoFree(s, j1, j2)
    requires !s.agents[t].turn.phase.Finished? && !s.agents[t].turn.phase.Awaiting?
    ensures Inv(Finalize(s, t, handled, j1, j2))
  {
    var s' := Finalize(s, t, handled, j1, j2);
    assert Owned(s') by {
      forall id ensures OneOwner(s', id) {
        FinalizeMoves(s, t, handled, j1, j2, id);
      }
    }
    hide Owned, OneOwner, Finalize;
    forall a | a in s'.agents ensures GoodAgent(s', a) {
      assert GoodAgent(s, t);
      assert a in s.agents ==> GoodAgent(s, a);
      FinalizedAgent(s, t, handled, j1, j2, a);
    }
  }

  /** An agent that is left alone stays good while the job it waits for, or the turn that waits for it, does. */
  lemma AgentStays(s: State, s': State, a: AgentId)
    requires a in s.agents && GoodAgent(s, a) && a in s'.agents && s'.agents[a] == s.agents[a]
    requires s.agents[a].Turn? && s.agents[a].turn.phase.Awaiting? ==>
      var j := s.agents[a].turn.phase.job;
      j in s'.agents && s'.agents[j].Job? && Serves(s'.agents[j].job, a, s.agents[a].turn.ids[s.agents[a].turn.claimed])
    requires s.agents[a].Job? && s.agents[a].job.kind.ToClaim? && !s.agents[a].job.abandoned ==>
      InPhase(s', s.agents[a].job.turn, Awaiting(a))
    ensures GoodAgent(s', a)
  {
    hide Distinct, Serves;
  }

  lemma FinalizedAgent(s: State, t: AgentId, handled: bool, j1: AgentId, j2: AgentId, a: AgentId)
    requires IsTurn(s, t) && GoodAgent(s, t) && TwoFree(s, j1, j2) && a in Finalize(s, t, handled, j1, j2).agents
    requires !s.agents[t].turn.phase.Finished? && !s.agents[t].turn.phase.Awaiting?
    requires a in s.agents ==> GoodAgent(s, a)
    ensures GoodAgent(Finalize(s, t, handled, j1, j2), a)
  {
    hide Distinct, Serves;
    var s' := Finalize(s, t, handled, j1, j2);
    if a in s.agents && a != t {
      assert s'.agents[a] == s.agents[a];
      AgentStays(s, s', a);
    }
  }

  lemma ReapedKeeps(s: State, j: AgentId, k: AgentId)
    requires Inv(s) && Enabled(s, AbandonedDone(j, k))
    ensures Inv(Reaped(s, j, k))
  {
    var i := s.agents[j].job;
    var s1, s' := Without(s, j), Reaped(s, j, k);
    assert GoodAgent(s, j);
    if i.answer == Some(true) {
      forall id ensures OneOwner(s', id) {
        OwnersWithout(s, s1, j, id);
        OwnersSet(s1, s', k, s'.agents[k], id);
        if id == i.id {
          OwnerIsOnly(s, id, j);
          assert Owners(s', id) == {k};
          Moves(s, s', id, j, k);
        } else {
          assert Owners(s', id) == Owners(s, id);
          Stays(s, s', id);
        }
      }
    } else {
      DropKeepsOwned(s, s', j);
    }
    hide Owned;
    forall a | a in s'.agents ensures GoodAgent(s', a) {
      if a in s.agents {
        assert GoodAgent(s, a);
      }
    }
  }

  lemma PromptKeeps(s: State, t: AgentId)
    requires Inv(s) && InPhase(s, t, Running)
    ensures Inv(Step(s, StartPrompt(t)))
  {
    var s' := Step(s, StartPrompt(t));
    assert GoodAgent(s, t);
    ChangeKeepsOwned(s, s', t, s'.agents[t]);
    hide Owned;
    forall a | a in s'.agents ensures GoodAgent(s', a) {
      assert GoodAgent(s, a);
    }
  }

  lemma PruneKeeps(s: State, cutoff: int, gone: set<Id>)
    requires Inv(s) && gone <= Prunable(s.table, cutoff)
    ensures Inv(s.(table := s.table - gone))
  {
    var s' := s.(table := s.table - gone);
    forall id ensures OneOwner(s', id) {
      assert OneOwner(s, id);
      assert Owners(s', id) == Owners(s, id);
      Stays(s, s', id);
    }
    hide Owned;
    forall a | a in s'.agents ensures GoodAgent(s', a) {
      assert GoodAgent(s, a);
    }
  }

  lemma StepKeeps(s: State, e: Event)
    requires Inv(s) && Enabled(s, e)
    ensures Inv(Step(s, e))
  {
    hide Inv, Good, Owned, Finalize, Resumed, Detached, Reaped, Committed, ToPhase, TurnOf, Owners;
    match e
    case Admit(t, origin, ids) => AdmitKeeps(s, t, origin, ids);
    case Dispatch(t, j) => DispatchKeeps(s, t, j);
    case Commit(j, now) => CommitKeeps(s, j, now);
    case Return(t, j1, j2) =>
      ResumedKeeps(s, t);
      if s.agents[s.agents[t].turn.phase.job].job.answer != Some(true) {
        ResumedFree(s, t, j1, j2);
        FinalizeKeeps(Resumed(s, t), t, false, j1, j2);
      }
    case CancelClaim(t, j1, j2) =>
      DetachedKeeps(s, t);
      FinalizeKeeps(Detached(s, t), t, false, j1, j2);
    case AbandonedDone(j, k) => ReapedKeeps(s, j, k);
    case StartPrompt(t) => PromptKeeps(s, t);
    case End(t, outcome, j1, j2) =>
      FinalizeKeeps(s, t, Settles(s.agents[t].turn.origin, outcome), j1, j2);
    case Prune(cutoff, gone) => PruneKeeps(s, cutoff, gone);
    case Crash => CrashKeeps(s);
  }

  lemma ResumedFree(s: State, t: AgentId, j1: AgentId, j2: AgentId)
    requires IsAwaiting(s, t) && TwoFree(s, j1, j2)
    ensures TwoFree(Resumed(s, t), j1, j2)
  {
  }

  lemma CrashKeeps(s: State)
    ensures Inv(Step(s, Crash))
  {
  }

  lemma {:induction false} RunKeeps(s: State, es: seq<Event>)
    requires Inv(s) && ValidRun(s, es)
    ensures Inv(Run(s, es))
    decreases |es|
  {
    hide Inv, Step, Enabled;
    if es != [] {
      StepKeeps(s, es[0]);
      RunKeeps(Step(s, es[0]), es[1..]);
    }
  }

  // ---------------------------------------------------------------------------------------------
  // What it is for
  // ---------------------------------------------------------------------------------------------

  /** Over any run from a table of any content, with cancellation at any await, crashes and prunes: a row is
      'processing' exactly if there is one running turn or pending job that answers for it. */
  lemma ExactlyOneOwner(persisted: Table, es: seq<Event>, id: Id)
    requires ValidRun(Init(persisted), es)
    ensures var s := Run(Init(persisted), es);
      |Owners(s, id)| == if IsProcessing(s.table, id) then 1 else 0
  {
    RunKeeps(Init(persisted), es);
    var s := Run(Init(persisted), es);
    hide Run, ValidRun;
    assert OneOwner(s, id);
  }

  /** Once all turns have finished and all jobs are done, no row is left 'processing'. */
  lemma NothingStaysProcessing(persisted: Table, es: seq<Event>, id: Id)
    requires ValidRun(Init(persisted), es)
    requires forall a :: a in Run(Init(persisted), es).agents ==>
      Run(Init(persisted), es).agents[a].Turn? && Run(Init(persisted), es).agents[a].turn.phase.Finished?
    ensures !IsProcessing(Run(Init(persisted), es).table, id)
  {
    ExactlyOneOwner(persisted, es, id);
    var s := Run(Init(persisted), es);
    hide Run, ValidRun;
    assert Owners(s, id) == {};
  }

  /** A finalizer that is about to run finds the claim of its own turn in the table, never one of another turn. */
  lemma FinalizersTouchOwnClaims(persisted: Table, es: seq<Event>, j: AgentId)
    requires ValidRun(Init(persisted), es)
    requires var s := Run(Init(persisted), es); IsJob(s, j) && !s.agents[j].job.kind.ToClaim?
    ensures var s := Run(Init(persisted), es); var i := s.agents[j].job;
      IsProcessing(s.table, i.id) && i.id in s.claimers && s.claimers[i.id] == i.turn
  {
    RunKeeps(Init(persisted), es);
    var s := Run(Init(persisted), es);
    hide Run, ValidRun;
    var id := s.agents[j].job.id;
    assert OneOwner(s, id) && j in Owners(s, id);
    OwnerIsOnly(s, id, j);
  }

  /** Only a prune removes a handled row, and only one whose retention clock is older than its cutoff. */
  lemma HandledRowsStay(s: State, e: Event, id: Id)
    requires Inv(s) && Enabled(s, e) && IsHandled(s.table, id)
    ensures IsHandled(Step(s, e).table, id) || (e.Prune? && id in e.gone && s.table[id].updatedAt < e.cutoff)
  {
    if e.Commit? {
      var i := s.agents[e.j].job;
      assert i.kind.ToRelease? && i.id == id ==> !IsProcessing(s.table, id);
    }
  }
}
