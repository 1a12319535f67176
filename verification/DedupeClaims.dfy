/** Turns that claim, prompt and finalize their identities while executor threads commit the table statements later.
    A step is what the event loop does between two awaits, or one statement of an executor thread. */
module DedupeClaims {
  import opened Options
  import opened DedupeStore

  type AgentId = nat

  datatype Origin = Signal | Synthetic

  /** How a turn leaves the claimed state; the last six are possible once the prompt has started. */
  datatype Outcome =
    | Discarded | Disabled | Maintenance | RateLimited | Shadow | AttachmentRejected | SessionFailed
    | CancelledEarly | EscapedEarly
    | Replied | SendFailed | EmptyReply | HermesFailed | Cancelled | Escaped

  predicate NeedsPrompt(o: Outcome) {
    o.Replied? || o.SendFailed? || o.EmptyReply? || o.HermesFailed? || o.Cancelled? || o.Escaped?
  }

  /** Whether the turn ends with its identities marked handled rather than released. */
  predicate Settles(origin: Origin, o: Outcome) {
    match o
    case Discarded | Disabled | RateLimited | Shadow | Replied | SendFailed => true
    case Maintenance | SessionFailed | EmptyReply | HermesFailed => origin.Signal?
    case AttachmentRejected | CancelledEarly | EscapedEarly | Cancelled | Escaped => false
  }

  datatype Phase = Claiming | Awaiting(job: AgentId) | Running | Prompting | Finished

  datatype Kind = ToClaim | ToMark | ToRelease

  datatype TurnInfo = TurnInfo(origin: Origin, ids: seq<Id>, claimed: nat, phase: Phase)

  /** A statement handed to the executor: its answer once committed, and whether its turn stopped waiting for it. */
  datatype JobInfo = JobInfo(kind: Kind, turn: AgentId, id: Id, answer: Option<bool>, abandoned: bool)

  /** Running turns and unfinished jobs; both are what a processing row can belong to. */
  datatype Agent = Turn(turn: TurnInfo) | Job(job: JobInfo)

  /** `claimers` and `prompts` are history: the turn behind each row that was claimed, and every prompt started. */
  datatype State = State(table: Table, agents: map<AgentId, Agent>, claimers: map<Id, AgentId>, prompts: multiset<Id>)

  datatype Event =
    | Admit(t: AgentId, origin: Origin, ids: seq<Id>)
    | Dispatch(t: AgentId, j: AgentId)
    | Commit(j: AgentId, now: int)
    | Return(t: AgentId, j1: AgentId, j2: AgentId)
    | CancelClaim(t: AgentId, j1: AgentId, j2: AgentId)
    | AbandonedDone(j: AgentId, k: AgentId)
    | StartPrompt(t: AgentId)
    | End(t: AgentId, outcome: Outcome, j1: AgentId, j2: AgentId)
    | Prune(cutoff: int, gone: set<Id>)
    | Crash

  // ---------------------------------------------------------------------------------------------
  // Steps
  // ---------------------------------------------------------------------------------------------

  predicate IsTurn(s: State, t: AgentId) { t in s.agents && s.agents[t].Turn? }

  predicate IsJob(s: State, j: AgentId) { j in s.agents && s.agents[j].Job? }

  predicate InPhase(s: State, t: AgentId, p: Phase) { IsTurn(s, t) && s.agents[t].turn.phase == p }

  predicate IsAwaiting(s: State, t: AgentId) {
    IsTurn(s, t) && s.agents[t].turn.phase.Awaiting? && IsJob(s, s.agents[t].turn.phase.job)
  }

  predicate TwoFree(s: State, j1: AgentId, j2: AgentId) { j1 !in s.agents && j2 !in s.agents && j1 != j2 }

  function WithTurn(s: State, t: AgentId, i: TurnInfo): State { s.(agents := s.agents[t := Turn(i)]) }

  function WithJob(s: State, j: AgentId, i: JobInfo): State { s.(agents := s.agents[j := Job(i)]) }

  function Without(s: State, j: AgentId): State { s.(agents := s.agents - {j}) }

  function ToPhase(s: State, t: AgentId, p: Phase): State
    requires IsTurn(s, t)
  {
    WithTurn(s, t, s.agents[t].turn.(phase := p))
  }

  function NewJob(kind: Kind, t: AgentId, id: Id): JobInfo { JobInfo(kind, t, id, None, false) }

  /** Every claimed identity gets its finalizer before the turn awaits anything. */
  function Finalize(s: State, t: AgentId, handled: bool, j1: AgentId, j2: AgentId): State
    requires IsTurn(s, t)
  {
    var i := s.agents[t].turn;
    var kind := if handled then ToMark else ToRelease;
    var s0 := ToPhase(s, t, Finished);
    var s1 := if i.claimed >= 1 && |i.ids| >= 1 then WithJob(s0, j1, NewJob(kind, t, i.ids[0])) else s0;
    if i.claimed >= 2 && |i.ids| >= 2 then WithJob(s1, j2, NewJob(kind, t, i.ids[1])) else s1
  }

  /** The turn has its answer: the claim is its own, or was somebody else's. */
  function Resumed(s: State, t: AgentId): State
    requires IsAwaiting(s, t)
  {
    var i := s.agents[t].turn;
    var won := s.agents[i.phase.job].job.answer == Some(true);
    var claimed := if won then i.claimed + 1 else i.claimed;
    WithTurn(Without(s, i.phase.job), t,
             i.(claimed := claimed, phase := if claimed >= |i.ids| then Running else Claiming))
  }

  /** The turn stops waiting; its job is left to run. */
  function Detached(s: State, t: AgentId): State
    requires IsAwaiting(s, t)
  {
    var j := s.agents[t].turn.phase.job;
    WithJob(ToPhase(s, t, Claiming), j, s.agents[j].job.(abandoned := true))
  }

  function Committed(s: State, j: AgentId, now: int): State
    requires IsJob(s, j)
  {
    var i := s.agents[j].job;
    match i.kind
    case ToMark => Without(s, j).(table := Marked(s.table, i.id, now))
    case ToRelease => Without(s, j).(table := Released(s.table, i.id))
    case ToClaim =>
      if i.id in s.table then WithJob(s, j, i.(answer := Some(false)))
      else WithJob(s, j, i.(answer := Some(true))).(table := Claimed(s.table, i.id, now),
                                                     claimers := s.claimers[i.id := i.turn])
  }

  /** The release of a claim that was committed after its turn had gone. */
  function Reaped(s: State, j: AgentId, k: AgentId): State
    requires IsJob(s, j)
  {
    var i := s.agents[j].job;
    if i.answer == Some(true) then WithJob(Without(s, j), k, NewJob(ToRelease, i.turn, i.id)) else Without(s, j)
  }

  predicate Enabled(s: State, e: Event) {
    match e
    case Admit(t, _, ids) => t !in s.agents && 1 <= |ids| <= 2
    case Dispatch(t, j) => InPhase(s, t, Claiming) && j !in s.agents && j != t
    case Commit(j, _) => IsJob(s, j) && s.agents[j].job.answer == None
    case Return(t, j1, j2) =>
      IsAwaiting(s, t) && s.agents[s.agents[t].turn.phase.job].job.answer.Some? && TwoFree(s, j1, j2)
    case CancelClaim(t, j1, j2) => IsAwaiting(s, t) && TwoFree(s, j1, j2)
    case AbandonedDone(j, k) =>
      IsJob(s, j) && s.agents[j].job.kind.ToClaim? && s.agents[j].job.abandoned && s.agents[j].job.answer.Some?
      && k !in s.agents
    case StartPrompt(t) => InPhase(s, t, Running)
    case End(t, outcome, j1, j2) =>
      InPhase(s, t, if NeedsPrompt(outcome) then Prompting else Running) && TwoFree(s, j1, j2)
    case Prune(cutoff, gone) => gone <= Prunable(s.table, cutoff)
    case Crash => true
  }

  function Step(s: State, e: Event): State
    requires Enabled(s, e)
  {
    match e
    case Admit(t, origin, ids) => WithTurn(s, t, TurnInfo(origin, ids, 0, Claiming))
    case Dispatch(t, j) =>
      var i := s.agents[t].turn;
      if i.claimed < |i.ids| then WithJob(ToPhase(s, t, Awaiting(j)), j, NewJob(ToClaim, t, i.ids[i.claimed])) else s
    case Commit(j, now) => Committed(s, j, now)
    case Return(t, j1, j2) =>
      if s.agents[s.agents[t].turn.phase.job].job.answer == Some(true) then Resumed(s, t)
      else Finalize(Resumed(s, t), t, false, j1, j2)
    case CancelClaim(t, j1, j2) => Finalize(Detached(s, t), t, false, j1, j2)
    case AbandonedDone(j, k) => Reaped(s, j, k)
    case StartPrompt(t) =>
      ToPhase(s, t, Prompting).(prompts := s.prompts + multiset(s.agents[t].turn.ids))
    case End(t, outcome, j1, j2) => Finalize(s, t, Settles(s.agents[t].turn.origin, outcome), j1, j2)
    case Prune(cutoff, gone) => s.(table := s.table - gone)
    case Crash => s.(table := Reclaimed(s.table), agents := map[])
  }

  function Init(persisted: Table): State { State(Reclaimed(persisted), map[], map[], multiset{}) }

  ghost predicate ValidRun(s: State, es: seq<Event>)
    decreases |es|
  {
    es == [] || (Enabled(s, es[0]) && ValidRun(Step(s, es[0]), es[1..]))
  }

  function Run(s: State, es: seq<Event>): State
    requires ValidRun(s, es)
    decreases |es|
  {
    if es == [] then s else Run(Step(s, es[0]), es[1..])
  }
}
