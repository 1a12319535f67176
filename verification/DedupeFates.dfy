/** What becomes of the identities of a turn: for every outcome, the row that its finalizer leaves, and that what is
    settled is not prompted again. */
module DedupeFates {
  import opened Options
  import opened DedupeStore
  import opened DedupeClaims
  import opened DedupeOwnership
  import opened DedupePrompts

  /** Shed, recorded or answered: of no use a second time, whoever asked. */
  predicate Concluded(o: Outcome) {
    o.Discarded? || o.Disabled? || o.RateLimited? || o.Shadow? || o.Replied? || o.SendFailed?
  }

  /** Failed with a notice to the sender: used up for a Signal event, to be tried again for a synthetic job. */
  predicate Failed(o: Outcome) {
    o.Maintenance? || o.SessionFailed? || o.EmptyReply? || o.HermesFailed?
  }

  predicate IsFinalizer(s: State, j: AgentId) { IsJob(s, j) && !s.agents[j].job.kind.ToClaim? }

  /** Until it is committed, a finalizer is left as it is by everything but a crash. */
  lemma FinalizerWaits(s: State, e: Event, j: AgentId)
    requires Inv(s) && Enabled(s, e) && IsFinalizer(s, j) && !e.Crash? && !(e.Commit? && e.j == j)
    ensures j in Step(s, e).agents && Step(s, e).agents[j] == s.agents[j]
  {
    hide Finalize, Resumed, Detached, Owned;
    match e
    case Return(t, j1, j2) =>
      assert GoodAgent(s, t);
      ResumedTurns(s, t, j);
      if s.agents[s.agents[t].turn.phase.job].job.answer != Some(true) {
        ResumedFree(s, t, j1, j2);
        FinalizeTurns(Resumed(s, t), t, false, j1, j2, j);
      }
    case CancelClaim(t, j1, j2) =>
      assert GoodAgent(s, t);
      DetachedTurns(s, t, j);
      FinalizeTurns(Detached(s, t), t, false, j1, j2, j);
    case End(t, outcome, j1, j2) =>
      FinalizeTurns(s, t, Settles(s.agents[t].turn.origin, outcome), j1, j2, j);
    case _ =>
  }

  /** Nothing in the run is a crash or commits job `j`. */
  ghost predicate LeavesAlone(es: seq<Event>, j: AgentId) {
    forall e :: e in es ==> !e.Crash? && !(e.Commit? && e.j == j)
  }

  lemma {:induction false} FinalizerWaitsInRuns(s: State, es: seq<Event>, j: AgentId)
    requires Inv(s) && ValidRun(s, es) && IsFinalizer(s, j) && LeavesAlone(es, j)
    ensures Inv(Run(s, es)) && j in Run(s, es).agents && Run(s, es).agents[j] == s.agents[j]
    decreases |es|
  {
    hide Inv, Step, Enabled;
    if es != [] {
      assert es[0] in es && forall e :: e in es[1..] ==> e in es;
      FinalizerWaits(s, es[0], j);
      StepKeeps(s, es[0]);
      FinalizerWaitsInRuns(Step(s, es[0]), es[1..], j);
    }
  }

  /** The finalizer of the `k`-th identity of a turn that ends. */
  function FinalizerOf(k: nat, j1: AgentId, j2: AgentId): AgentId { if k == 0 then j1 else j2 }

  lemma SettlesExactly(origin: Origin, o: Outcome)
    ensures Settles(origin, o) <==> Concluded(o) || (Failed(o) && origin == Signal)
  {
  }

  lemma EndSendsFinalizers(s: State, t: AgentId, outcome: Outcome, j1: AgentId, j2: AgentId, k: nat)
    requires Inv(s) && Enabled(s, End(t, outcome, j1, j2)) && k < |s.agents[t].turn.ids|
    ensures var s', j := Step(s, End(t, outcome, j1, j2)), FinalizerOf(k, j1, j2);
      && IsFinalizer(s', j) && s'.agents[j].job.id == s.agents[t].turn.ids[k]
      && s'.table == s.table
      && (s'.agents[j].job.kind.ToMark? <==>
            Concluded(outcome) || (Failed(outcome) && s.agents[t].turn.origin == Signal))
  {
    assert GoodAgent(s, t);
    SettlesExactly(s.agents[t].turn.origin, outcome);
    hide Settles, Concluded, Failed, Owned;
  }

  lemma FinalizerCommits(s: State, j: AgentId, now: int)
    requires Inv(s) && IsFinalizer(s, j)
    ensures Enabled(s, Commit(j, now)) && IsProcessing(s.table, s.agents[j].job.id)
    ensures var s', id := Step(s, Commit(j, now)), s.agents[j].job.id;
      if s.agents[j].job.kind.ToMark? then id in s'.table && s'.table[id] == Row(Handled, now) else id !in s'.table
  {
    assert GoodAgent(s, j);
    var id := s.agents[j].job.id;
    assert OneOwner(s, id) && j in Owners(s, id);
    OwnerIsOnly(s, id, j);
  }

  /** For every run, every turn that ends and every identity it claimed, whatever happens until the finalizer of the
      identity is committed short of a crash: shed, recorded and answered turns, of either origin, leave the row
      handled; failures before an answer do so for Signal and free the identity of a synthetic job for its retry; a
      refused attachment, a cancellation and an escape free it in any case. Until then the row stays processing. */
  lemma FateOfClaims(persisted: Table, es: seq<Event>, t: AgentId, outcome: Outcome, j1: AgentId, j2: AgentId, k: nat,
                     between: seq<Event>, now: int)
    requires ValidRun(Init(persisted), es)
    requires var s := Run(Init(persisted), es);
      && Enabled(s, End(t, outcome, j1, j2)) && k < |s.agents[t].turn.ids|
      && ValidRun(Step(s, End(t, outcome, j1, j2)), between) && LeavesAlone(between, FinalizerOf(k, j1, j2))
    ensures var s := Run(Init(persisted), es);
      var id := s.agents[t].turn.ids[k];
      var before := Run(Step(s, End(t, outcome, j1, j2)), between);
      && IsProcessing(before.table, id)
      && Enabled(before, Commit(FinalizerOf(k, j1, j2), now))
      && var after := Step(before, Commit(FinalizerOf(k, j1, j2), now)).table;
         if Concluded(outcome) || (Failed(outcome) && s.agents[t].turn.origin == Signal)
         then id in after && after[id] == Row(Handled, now)
         else id !in after
  {
    RunKeeps(Init(persisted), es);
    var s := Run(Init(persisted), es);
    var e, j := End(t, outcome, j1, j2), FinalizerOf(k, j1, j2);
    StepKeeps(s, e);
    EndSendsFinalizers(s, t, outcome, j1, j2, k);
    hide Inv, Run, ValidRun, Step, Enabled;
    FinalizerWaitsInRuns(Step(s, e), between, j);
    var before := Run(Step(s, e), between);
    FinalizerCommits(before, j, now);
  }

  // ---------------------------------------------------------------------------------------------
  // How claims are won and lost
  // ---------------------------------------------------------------------------------------------

  /** The jobs that a turn leaves for the identities it has claimed: a release of each, and of no other. */
  ghost predicate ReleasesClaimed(s: State, t: AgentId, j1: AgentId, j2: AgentId, ids: seq<Id>) {
    && (j1 in s.agents <==> |ids| >= 1) && (j2 in s.agents <==> |ids| >= 2)
    && (j1 in s.agents ==> s.agents[j1] == Job(JobInfo(ToRelease, t, ids[0], None, false)))
    && (j2 in s.agents ==> s.agents[j2] == Job(JobInfo(ToRelease, t, ids[1], None, false)))
  }

  /** A committed claim inserts its row exactly if there was none, and its job knows. */
  lemma ClaimAnswers(s: State, j: AgentId, now: int)
    requires IsJob(s, j) && s.agents[j].job.kind.ToClaim? && Enabled(s, Commit(j, now))
    ensures var s', i := Step(s, Commit(j, now)), s.agents[j].job;
      && s'.agents == s.agents[j := Job(i.(answer := Some(i.id !in s.table)))]
      && s'.table == (if i.id in s.table then s.table else s.table[i.id := Row(Processing, now)])
      && s'.prompts == s.prompts
  {
  }

  /** A turn that won its claim goes on to the next identity, or runs when it has them all. */
  lemma WonClaimGoesOn(s: State, t: AgentId, j1: AgentId, j2: AgentId)
    requires Inv(s) && Enabled(s, Return(t, j1, j2))
    requires s.agents[s.agents[t].turn.phase.job].job.answer == Some(true)
    ensures var s', i := Step(s, Return(t, j1, j2)), s.agents[t].turn;
      && s'.table == s.table && s'.prompts == s.prompts
      && s'.agents == (s.agents - {i.phase.job})[t := Turn(i.(claimed := i.claimed + 1,
                                                              phase := if i.claimed + 1 == |i.ids| then Running else Claiming))]
  {
    assert GoodAgent(s, t);
  }

  /** A turn that lost it has finished: it is not run, and what it had claimed before is released. */
  lemma LostClaimEnds(s: State, t: AgentId, j1: AgentId, j2: AgentId)
    requires Inv(s) && Enabled(s, Return(t, j1, j2))
    requires s.agents[s.agents[t].turn.phase.job].job.answer == Some(false)
    ensures var s', i := Step(s, Return(t, j1, j2)), s.agents[t].turn;
      && s'.table == s.table && s'.prompts == s.prompts
      && InPhase(s', t, Finished) && i.phase.job !in s'.agents
      && ReleasesClaimed(s', t, j1, j2, i.ids[..i.claimed])
  {
    assert GoodAgent(s, t);
  }

  /** A turn that is cancelled at a claim has finished too; what it had claimed is released, and so will be the claim it
      does not wait for, if it is committed. */
  lemma CancelledClaimEnds(s: State, t: AgentId, j1: AgentId, j2: AgentId)
    requires Inv(s) && Enabled(s, CancelClaim(t, j1, j2))
    ensures var s', i := Step(s, CancelClaim(t, j1, j2)), s.agents[t].turn;
      && s'.table == s.table && s'.prompts == s.prompts && InPhase(s', t, Finished)
      && ReleasesClaimed(s', t, j1, j2, i.ids[..i.claimed])
      && i.phase.job in s'.agents
      && s'.agents[i.phase.job] == Job(s.agents[i.phase.job].job.(abandoned := true))
  {
    assert GoodAgent(s, t);
  }

  lemma AbandonedClaimIsReleased(s: State, j: AgentId, k: AgentId)
    requires Inv(s) && Enabled(s, AbandonedDone(j, k))
    ensures var s', i := Step(s, AbandonedDone(j, k)), s.agents[j].job;
      && s'.table == s.table && s'.prompts == s.prompts
      && s'.agents == (if i.answer == Some(true)
                       then (s.agents - {j})[k := Job(JobInfo(ToRelease, i.turn, i.id, None, false))] else s.agents - {j})
  {
  }

  /** A new turn has claimed nothing, its claims are sent one at a time and in order, its prompt counts once for each
      identity, a sweep removes its rows, and a crash leaves the handled rows. */
  lemma OtherSteps(s: State, e: Event)
    requires Inv(s) && Enabled(s, e)
    ensures var s' := Step(s, e);
      match e
      case Admit(t, origin, ids) => s' == s.(agents := s.agents[t := Turn(TurnInfo(origin, ids, 0, Claiming))])
      case Dispatch(t, j) =>
        var i := s.agents[t].turn;
        && i.claimed < |i.ids|
        && s' == s.(agents := s.agents[t := Turn(i.(phase := Awaiting(j)))]
                                      [j := Job(JobInfo(ToClaim, t, i.ids[i.claimed], None, false))])
      case StartPrompt(t) =>
        var i := s.agents[t].turn;
        s' == s.(agents := s.agents[t := Turn(i.(phase := Prompting))], prompts := s.prompts + multiset(i.ids))
      case Prune(_, gone) => s' == s.(table := s.table - gone)
      case Crash =>
        && s'.agents == map[] && s'.prompts == s.prompts
        && forall id :: (id in s'.table <==> IsHandled(s.table, id)) && (id in s'.table ==> s'.table[id] == s.table[id])
      case _ => true
  {
    if e.Dispatch? {
      assert GoodAgent(s, e.t);
    }
  }

  // ---------------------------------------------------------------------------------------------
  // What is settled is not prompted again
  // ---------------------------------------------------------------------------------------------

  /** Handled, or about to be. */
  ghost predicate Settled(s: State, id: Id) {
    IsHandled(s.table, id) || exists j :: j in Owners(s, id) && s.agents[j].Job? && s.agents[j].job.kind.ToMark?
  }

  /** A crash before the row is handled, or the prune of the handled row. */
  predicate Unsettles(s: State, e: Event, id: Id) {
    match e
    case Crash => !IsHandled(s.table, id)
    case Prune(_, gone) => id in gone
    case _ => false
  }

  ghost predicate NothingUnsettles(s: State, es: seq<Event>, id: Id)
    requires ValidRun(s, es)
    decreases |es|
  {
    es == [] || (!Unsettles(s, es[0], id) && NothingUnsettles(Step(s, es[0]), es[1..], id))
  }

  lemma MarkerStays(s: State, e: Event, id: Id, j: AgentId)
    requires Inv(s) && Enabled(s, e) && !e.Crash? && !(e.Commit? && e.j == j)
    requires j in Owners(s, id) && IsFinalizer(s, j) && s.agents[j].job.kind.ToMark?
    ensures Settled(Step(s, e), id)
  {
    FinalizerWaits(s, e, j);
    hide Step;
    assert j in Owners(Step(s, e), id);
  }

  lemma SettledStays(s: State, e: Event, id: Id)
    requires Inv(s) && Enabled(s, e) && Settled(s, id) && !Unsettles(s, e, id)
    ensures Settled(Step(s, e), id)
  {
    if IsHandled(s.table, id) {
      HandledRowsStay(s, e, id);
    } else {
      var j :| j in Owners(s, id) && s.agents[j].Job? && s.agents[j].job.kind.ToMark?;
      if e.Commit? && e.j == j {
        assert IsHandled(Step(s, e).table, id);
      } else {
        MarkerStays(s, e, id, j);
      }
    }
  }

  lemma SettledIsNotPrompted(s: State, t: AgentId, id: Id)
    requires Inv(s) && InPhase(s, t, Running) && Settled(s, id)
    ensures Step(s, StartPrompt(t)).prompts[id] == s.prompts[id]
  {
    var i := s.agents[t].turn;
    assert GoodAgent(s, t);
    assert i.ids[..i.claimed] == i.ids;
    if id in i.ids {
      assert t in Owners(s, id);
      assert OneOwner(s, id);
      OwnerIsOnly(s, id, t);
      assert false;
    }
    assert multiset(i.ids)[id] == 0;
  }

  lemma {:induction false} NoPromptOfSettled(s: State, es: seq<Event>, id: Id)
    requires Inv(s) && Settled(s, id) && ValidRun(s, es) && NothingUnsettles(s, es, id)
    ensures Run(s, es).prompts[id] == s.prompts[id]
    decreases |es|
  {
    hide Inv, Settled, Unsettles, Step, Enabled;
    if es != [] {
      StepKeeps(s, es[0]);
      SettledStays(s, es[0], id);
      if es[0].StartPrompt? {
        PromptOfSettled(s, es[0], id);
      } else {
        OnlyPromptsPrompt(s, es[0]);
      }
      NoPromptOfSettled(Step(s, es[0]), es[1..], id);
    }
  }

  lemma PromptOfSettled(s: State, e: Event, id: Id)
    requires Inv(s) && Enabled(s, e) && e.StartPrompt? && Settled(s, id)
    ensures Step(s, e).prompts[id] == s.prompts[id]
  {
    SettledIsNotPrompted(s, e.t, id);
  }

  /** An answered identity, a synthetic job's as well as a Signal event's, and one that was shed or only recorded, is not
      prompted again, until a crash comes before its row is handled or a later prune removes the row. For Signal this
      includes the failures before an answer. */
  lemma SettledTurnsAreNotRepeated(persisted: Table, es: seq<Event>, t: AgentId, outcome: Outcome, j1: AgentId, j2: AgentId,
                                   id: Id, later: seq<Event>)
    requires ValidRun(Init(persisted), es)
    requires var s := Run(Init(persisted), es);
      && Enabled(s, End(t, outcome, j1, j2)) && id in s.agents[t].turn.ids
      && (Concluded(outcome) || (Failed(outcome) && s.agents[t].turn.origin == Signal))
      && ValidRun(Step(s, End(t, outcome, j1, j2)), later)
      && NothingUnsettles(Step(s, End(t, outcome, j1, j2)), later, id)
    ensures var s := Run(Init(persisted), es);
      Run(Step(s, End(t, outcome, j1, j2)), later).prompts[id] == s.prompts[id]
  {
    RunKeeps(Init(persisted), es);
    var s := Run(Init(persisted), es);
    hide Run, ValidRun, NothingUnsettles;
    EndSettles(s, t, outcome, j1, j2, id);
    NoPromptOfSettled(Step(s, End(t, outcome, j1, j2)), later, id);
  }

  lemma EndSettles(s: State, t: AgentId, outcome: Outcome, j1: AgentId, j2: AgentId, id: Id)
    requires Inv(s) && Enabled(s, End(t, outcome, j1, j2)) && id in s.agents[t].turn.ids
    requires Concluded(outcome) || (Failed(outcome) && s.agents[t].turn.origin == Signal)
    ensures var s' := Step(s, End(t, outcome, j1, j2)); Inv(s') && Settled(s', id) && s'.prompts == s.prompts
  {
    var e := End(t, outcome, j1, j2);
    var k :| 0 <= k < |s.agents[t].turn.ids| && s.agents[t].turn.ids[k] == id;
    StepKeeps(s, e);
    OnlyPromptsPrompt(s, e);
    EndSendsFinalizers(s, t, outcome, j1, j2, k);
    hide Step, Inv, Enabled;
    assert FinalizerOf(k, j1, j2) in Owners(Step(s, e), id);
  }
}
