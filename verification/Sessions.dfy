/** The cache of routed sessions: rotation, resumption and eviction. */
module Sessions {
  import opened Options

  type Key = string
  type SessionId = nat
  type ProfileId = nat

  datatype Policy = PersistentRoute | PersistentSender | Ephemeral

  datatype Route = Route(key: string, policy: Policy, maxTurns: Option<nat>, maxAge: Option<real>, recreate: bool)

  /** A session with the profile process it lives in and what its context has served. */
  datatype Session = Session(
    profile: ProfileId,
    id: SessionId,
    ephemeral: bool,
    policy: Policy,
    createdAt: real,
    turns: nat)

  datatype Registry = Registry(sessions: map<Key, Session>, routes: map<Key, string>)

  /** What session/resume comes to, and what session/new answers if it is asked. */
  datatype Resume = Resumed | NotAdvertised | Raised

  datatype Reply = Reply(resume: Resume, newId: Option<SessionId>, now: real)

  function Cached(r: Registry, key: Key, s: Session, route: Route): Registry {
    Registry(r.sessions[key := s], r.routes[key := route.key])
  }

  function Evicted(r: Registry, keys: set<Key>): Registry { Registry(r.sessions - keys, r.routes - keys) }

  predicate Expired(route: Route, s: Session, now: real) {
    || (route.maxTurns.Some? && s.turns >= route.maxTurns.value)
    || (route.maxAge.Some? && now - s.createdAt >= route.maxAge.value)
  }

  /** The cached session that the turn goes on with, after a spent one is evicted. */
  function Lookup(r: Registry, route: Route, key: Key, now: real): (Registry, Option<Session>) {
    if key !in r.sessions then (r, None)
    else if Expired(route, r.sessions[key], now) then (Evicted(r, {key}), None)
    else (r, Some(r.sessions[key]))
  }

  /** A session of the same id goes on with its budget, any other starts a new one. */
  function Renewed(route: Route, profile: ProfileId, previous: Session, id: SessionId, now: real): Session {
    Session(profile, id, previous.ephemeral, route.policy, if id == previous.id then previous.createdAt else now,
            if id == previous.id then previous.turns else 0)
  }

  /** None is an exception. */
  function ResumeOrRecreate(route: Route, profile: ProfileId, previous: Session, e: Reply): Option<Session> {
    if e.resume.Resumed? then Some(previous.(profile := profile, policy := route.policy))
    else if e.resume.Raised? && !route.recreate then None
    else
      match e.newId
      case None => None
      case Some(id) => Some(Renewed(route, profile, previous, id, e.now))
  }

  /** The rest of `get`, with the session that the lookup found. */
  function Completed(r: Registry, route: Route, key: Key, profile: ProfileId, existing: Option<Session>, e: Reply)
    : (Registry, Option<Session>)
  {
    match existing
    case Some(s) =>
      if s.profile == profile then
        var s' := s.(turns := s.turns + 1);
        (if key in r.sessions then r.(sessions := r.sessions[key := s']) else r, Some(s'))
      else
        (match ResumeOrRecreate(route, profile, s, e)
         case None => (r, None)
         case Some(s1) => var s' := s1.(turns := s1.turns + 1); (Cached(r, key, s', route), Some(s')))
    case None =>
      match e.newId
      case None => (r, None)
      case Some(id) =>
        var s := Session(profile, id, route.policy.Ephemeral?, route.policy, e.now, 1);
        (if route.policy.Ephemeral? then r else Cached(r, key, s, route), Some(s))
  }

  function Replaced(r: Registry, route: Route, key: Key, profile: ProfileId, previous: Session, e: Reply)
    : (Registry, Option<Session>)
  {
    match ResumeOrRecreate(route, profile, previous, e)
    case None => (r, None)
    case Some(s) => (if route.policy.Ephemeral? then r else Cached(r, key, s, route), Some(s))
  }

  // ---------------------------------------------------------------------------------------------
  // Any run of turns
  // ---------------------------------------------------------------------------------------------

  /** A turn waits for its session, or holds it. */
  datatype Turn = Getting(route: Route, profile: ProfileId, existing: Option<Session>) | Holding(route: Route, session: Session)

  /** `served` counts, for each session context, the turns it was handed to. */
  datatype State = State(registry: Registry, turns: map<Key, Turn>, served: map<SessionId, nat>)

  datatype Event =
    | Begin(key: Key, route: Route, profile: ProfileId, now: real)
    | Complete(key: Key, reply: Reply)
    | Replace(key: Key, profile: ProfileId, reply: Reply)
    | Finish(key: Key)
    | Drop(keys: set<Key>)

  /** Ids that session/new answers with are new. */
  predicate FreshReply(s: State, e: Reply) { e.newId.Some? ==> e.newId.value !in s.served }

  /** The route lock admits one turn per session key at a time, an ephemeral key is made for one turn, and all routes
      of the run rotate after `max` turns. */
  predicate Enabled(s: State, e: Event, max: nat) {
    match e
    case Begin(key, route, _, _) =>
      key !in s.turns && route.maxTurns == Some(max) && (route.policy.Ephemeral? ==> key !in s.registry.sessions)
    case Complete(key, reply) => key in s.turns && s.turns[key].Getting? && FreshReply(s, reply)
    case Replace(key, _, reply) => key in s.turns && s.turns[key].Holding? && FreshReply(s, reply)
    case Finish(key) => key in s.turns
    case Drop(_) => true
  }

  function Serve(served: map<SessionId, nat>, id: SessionId): map<SessionId, nat> {
    served[id := (if id in served then served[id] else 0) + 1]
  }

  function Note(served: map<SessionId, nat>, id: SessionId): map<SessionId, nat> {
    if id in served then served else served[id := 0]
  }

  function Step(s: State, e: Event): State {
    match e
    case Begin(key, route, profile, now) =>
      var (r, existing) := Lookup(s.registry, route, key, now);
      s.(registry := r, turns := s.turns[key := Getting(route, profile, existing)])
    case Complete(key, reply) =>
      if key !in s.turns || !s.turns[key].Getting? then s
      else
        var t := s.turns[key];
        var (r, got) := Completed(s.registry, t.route, key, t.profile, t.existing, reply);
        (match got
         case None => s.(turns := s.turns - {key})
         case Some(n) => State(r, s.turns[key := Holding(t.route, n)], Serve(s.served, n.id)))
    case Replace(key, profile, reply) =>
      if key !in s.turns || !s.turns[key].Holding? then s
      else
        var t := s.turns[key];
        var (r, got) := Replaced(s.registry, t.route, key, profile, t.session, reply);
        (match got
         case None => s
         case Some(n) => s.(registry := r, served := Note(s.served, n.id)))
    case Finish(key) => s.(turns := s.turns - {key})
    case Drop(keys) => s.(registry := Evicted(s.registry, keys))
  }

  const EMPTY := State(Registry(map[], map[]), map[], map[])

  ghost predicate ValidRun(s: State, es: seq<Event>, max: nat)
    decreases |es|
  {
    es == [] || (Enabled(s, es[0], max) && ValidRun(Step(s, es[0]), es[1..], max))
  }

  function Run(s: State, es: seq<Event>): State
    decreases |es|
  {
    if es == [] then s else Run(Step(s, es[0]), es[1..])
  }

  // ---------------------------------------------------------------------------------------------
  // Invariant
  // ---------------------------------------------------------------------------------------------

  /** `n` is what the cache or the turn of `key` knows about a session. */
  predicate Knows(s: State, key: Key, n: Session) {
    || (key in s.registry.sessions && s.registry.sessions[key] == n)
    || (key in s.turns && s.turns[key].Getting? && s.turns[key].existing == Some(n))
    || (key in s.turns && s.turns[key].Holding? && s.turns[key].session == n)
  }

  ghost predicate OneDomain(s: State) { s.registry.sessions.Keys == s.registry.routes.Keys }

  ghost predicate Counted(s: State) {
    forall k, n :: Knows(s, k, n) ==> n.id in s.served && s.served[n.id] == n.turns
  }

  ghost predicate Apart(s: State) {
    forall k, n, k', n' :: Knows(s, k, n) && Knows(s, k', n') && n.id == n'.id ==> k == k'
  }

  ghost predicate Budgeted(s: State, max: nat) {
    && (forall id :: id in s.served ==> s.served[id] <= max)
    && (forall k :: k in s.turns && s.turns[k].Getting? && s.turns[k].existing.Some? ==> s.turns[k].existing.value.turns < max)
  }

  ghost predicate EphemeralsOut(s: State) {
    && (forall k :: k in s.registry.sessions ==> !s.registry.sessions[k].ephemeral)
    && (forall k :: k in s.turns && s.turns[k].Getting? && s.turns[k].existing.Some? ==>
          !s.turns[k].route.policy.Ephemeral? && !s.turns[k].existing.value.ephemeral)
    && (forall k :: k in s.turns && s.turns[k].Holding? ==>
          s.turns[k].session.ephemeral == s.turns[k].route.policy.Ephemeral?)
  }

  ghost predicate Inv(s: State, max: nat) {
    OneDomain(s) && Counted(s) && Apart(s) && Budgeted(s, max) && EphemeralsOut(s)
  }

  lemma BeginKeeps(s: State, e: Event, max: nat)
    requires Inv(s, max) && e.Begin? && Enabled(s, e, max)
    ensures Inv(Step(s, e), max)
  {
    var s' := Step(s, e);
    assert forall k, n :: Knows(s', k, n) ==> Knows(s, k, n);
  }

  /** What a completed `get` hands out: a known session with one more turn, or a new one. */
  ghost predicate HandedOut(s: State, key: Key, n: Session, max: nat) {
    || (n.id !in s.served && n.turns == 1)
    || (n.id in s.served && n.turns == s.served[n.id] + 1 && s.served[n.id] < max && exists m :: Knows(s, key, m) && m.id == n.id)
  }

  /** Nobody else knows it, and the registry of `s'` has nothing else new. */
  ghost predicate OnlyNews(s: State, s': State, key: Key, n: Session) {
    forall k, m :: Knows(s', k, m) ==> (k == key && m == n) || (Knows(s, k, m) && m.id != n.id)
  }

  lemma CompleteHandsOut(s: State, key: Key, reply: Reply, n: Session, max: nat)
    requires Inv(s, max) && Enabled(s, Complete(key, reply), max)
    requires var t := s.turns[key]; Completed(s.registry, t.route, key, t.profile, t.existing, reply).1 == Some(n)
    ensures HandedOut(s, key, n, max)
    ensures n.ephemeral == s.turns[key].route.policy.Ephemeral?
  {
    var t := s.turns[key];
    if t.existing.Some? {
      assert Knows(s, key, t.existing.value);
    }
  }

  lemma CompleteOnlyNews(s: State, key: Key, reply: Reply, n: Session, max: nat)
    requires Inv(s, max) && Enabled(s, Complete(key, reply), max)
    requires var t := s.turns[key]; Completed(s.registry, t.route, key, t.profile, t.existing, reply).1 == Some(n)
    requires HandedOut(s, key, n, max)
    ensures OnlyNews(s, Step(s, Complete(key, reply)), key, n)
  {
    var s' := Step(s, Complete(key, reply));
    var t := s.turns[key];
    hide Budgeted, EphemeralsOut, OneDomain;
    forall k, m | Knows(s', k, m) ensures (k == key && m == n) || (Knows(s, k, m) && m.id != n.id) {
      if k != key || m != n {
        assert Knows(s, k, m);
        if t.existing.Some? {
          assert Knows(s, key, t.existing.value);
        }
      }
    }
  }

  lemma CompleteKeeps(s: State, e: Event, max: nat)
    requires max >= 1 && Inv(s, max) && e.Complete? && Enabled(s, e, max)
    ensures Inv(Step(s, e), max)
  {
    var s', t := Step(s, e), s.turns[e.key];
    var got := Completed(s.registry, t.route, e.key, t.profile, t.existing, e.reply).1;
    match got
    case None =>
      assert forall k, n :: Knows(s', k, n) ==> Knows(s, k, n);
    case Some(n) =>
      CompleteHandsOut(s, e.key, e.reply, n, max);
      CompleteOnlyNews(s, e.key, e.reply, n, max);
      hide Counted, Apart, Budgeted, HandedOut, OnlyNews;
  }

  lemma ReplaceKeeps(s: State, e: Event, max: nat)
    requires Inv(s, max) && e.Replace? && Enabled(s, e, max)
    ensures Inv(Step(s, e), max)
  {
    var s', t := Step(s, e), s.turns[e.key];
    assert Knows(s, e.key, t.session);
    var got := Replaced(s.registry, t.route, e.key, e.profile, t.session, e.reply).1;
    if got.Some? {
      var n := got.value;
      assert n.id == t.session.id || n.id !in s.served;
      assert forall k, m :: Knows(s', k, m) ==> (k == e.key && m == n) || Knows(s, k, m);
      hide Knows;
      assert forall k, m :: Knows(s, k, m) ==> m.id in s.served;
    }
  }

  lemma LessKeeps(s: State, e: Event, max: nat)
    requires Inv(s, max) && (e.Finish? || e.Drop?)
    ensures Inv(Step(s, e), max)
  {
    var s' := Step(s, e);
    assert forall k, n :: Knows(s', k, n) ==> Knows(s, k, n);
  }

  lemma StepKeeps(s: State, e: Event, max: nat)
    requires max >= 1 && Inv(s, max) && Enabled(s, e, max)
    ensures Inv(Step(s, e), max)
  {
    hide *;
    match e
    case Begin(_, _, _, _) => BeginKeeps(s, e, max);
    case Complete(_, _) => CompleteKeeps(s, e, max);
    case Replace(_, _, _) => ReplaceKeeps(s, e, max);
    case Finish(_) => LessKeeps(s, e, max);
    case Drop(_) => LessKeeps(s, e, max);
  }

  lemma {:induction false} RunKeeps(s: State, es: seq<Event>, max: nat)
    requires max >= 1 && Inv(s, max) && ValidRun(s, es, max)
    ensures Inv(Run(s, es), max)
    decreases |es|
  {
    hide Inv, Step, Enabled;
    if es != [] {
      StepKeeps(s, es[0], max);
      RunKeeps(Step(s, es[0]), es[1..], max);
    }
  }

  // ---------------------------------------------------------------------------------------------
  // What it is for
  // ---------------------------------------------------------------------------------------------

  /** Over any run of turns that get, resume, recreate and replace sessions while others are dropped, no session
      context serves more than `max` turns, ephemeral sessions are never cached, and the two maps of the cache have
      one domain. */
  lemma NoContextServesMore(es: seq<Event>, max: nat, id: SessionId, key: Key)
    requires max >= 1 && ValidRun(EMPTY, es, max)
    ensures var s := Run(EMPTY, es);
      && (id in s.served ==> s.served[id] <= max)
      && s.registry.sessions.Keys == s.registry.routes.Keys
      && (key in s.registry.sessions ==>
            var n := s.registry.sessions[key];
            !n.ephemeral && n.id in s.served && n.turns == s.served[n.id])
  {
    assert forall k, n :: !Knows(EMPTY, k, n);
    RunKeeps(EMPTY, es, max);
    var s := Run(EMPTY, es);
    hide Run, ValidRun;
    if key in s.registry.sessions {
      assert Knows(s, key, s.registry.sessions[key]);
    }
  }

  /** Its turns are used up, or it is as old as a session of the route may get. */
  predicate Spent(route: Route, n: Session, now: real) {
    (route.maxTurns.Some? && route.maxTurns.value <= n.turns) || (route.maxAge.Some? && n.createdAt + route.maxAge.value <= now)
  }

  /** Rotation is not early: a context that is below its budget and younger than its limit is handed out again, also
      across a restart of its profile when the session resumes, and keeps its age. */
  lemma ContextIsKept(r: Registry, route: Route, key: Key, profile: ProfileId, now: real, e: Reply)
    requires key in r.sessions && !Spent(route, r.sessions[key], now)
    requires r.sessions[key].profile == profile || e.resume.Resumed?
    ensures var n := r.sessions[key]; var (r', got) := Got(r, route, key, profile, now, e);
      && got == Some(n.(profile := profile, turns := n.turns + 1,
                        policy := if n.profile == profile then n.policy else route.policy))
      && r'.sessions == r.sessions[key := got.value]
      && r'.routes == if n.profile == profile then r.routes else r.routes[key := route.key]
  {
  }

  /** And it is not late: a spent context is evicted and, whatever the profile answers, not handed out. */
  lemma SpentContextGoes(r: Registry, route: Route, key: Key, profile: ProfileId, now: real, e: Reply)
    requires key in r.sessions && Spent(route, r.sessions[key], now) && e.newId != Some(r.sessions[key].id)
    ensures var (r', got) := Got(r, route, key, profile, now, e);
      && (got.Some? ==> got.value.id != r.sessions[key].id && got.value.turns == 1)
      && (key in r'.sessions ==> got == Some(r'.sessions[key]))
  {
  }

  /** Without a context to go on with, a new one is asked for: it counts its first turn, and is cached unless the route is
      ephemeral. Without an answer there is no session, and a spent one is gone all the same. */
  lemma NewContext(r: Registry, route: Route, key: Key, profile: ProfileId, now: real, e: Reply)
    requires key !in r.sessions || Spent(route, r.sessions[key], now)
    ensures var (r', got) := Got(r, route, key, profile, now, e);
      && (got.Some? <==> e.newId.Some?)
      && (got.Some? ==> got.value == Session(profile, e.newId.value, route.policy == Ephemeral, route.policy, e.now, 1))
      && (if got.Some? && route.policy != Ephemeral
          then r'.sessions == r.sessions[key := got.value] && r'.routes == r.routes[key := route.key]
          else r'.sessions == r.sessions - {key} && (key in r.sessions ==> r'.routes == r.routes - {key})
               && (key !in r.sessions ==> r'.routes == r.routes))
  {
  }

  /** A context whose profile process was replaced and does not resume: the failure is raised unless the route recreates;
      otherwise a new session is asked for, which is cached in its place, and starts a budget of its own unless it has the
      same id. Without an answer nothing changes. */
  lemma LostContext(r: Registry, route: Route, key: Key, profile: ProfileId, now: real, e: Reply)
    requires key in r.sessions && !Spent(route, r.sessions[key], now)
    requires r.sessions[key].profile != profile && !e.resume.Resumed?
    ensures var n := r.sessions[key]; var (r', got) := Got(r, route, key, profile, now, e);
      && (got.Some? <==> e.newId.Some? && (e.resume.NotAdvertised? || route.recreate))
      && (got.None? ==> r' == r)
      && (got.Some? ==>
            && got.value == (if e.newId == Some(n.id)
                             then Session(profile, n.id, n.ephemeral, route.policy, n.createdAt, n.turns + 1)
                             else Session(profile, e.newId.value, n.ephemeral, route.policy, e.now, 1))
            && r'.sessions == r.sessions[key := got.value] && r'.routes == r.routes[key := route.key])
  {
  }

  /** A replacement after a restart does the same for the session of a turn, and counts no turn. */
  lemma ReplacedContext(r: Registry, route: Route, key: Key, profile: ProfileId, n: Session, e: Reply)
    ensures var (r', got) := Replaced(r, route, key, profile, n, e);
      && (got.Some? <==> e.resume.Resumed? || (e.newId.Some? && (e.resume.NotAdvertised? || route.recreate)))
      && (got.Some? ==>
            got.value == (if e.resume.Resumed? || e.newId == Some(n.id)
                          then Session(profile, n.id, n.ephemeral, route.policy, n.createdAt, n.turns)
                          else Session(profile, e.newId.value, n.ephemeral, route.policy, e.now, 0)))
      && (if got.Some? && route.policy != Ephemeral
          then r'.sessions == r.sessions[key := got.value] && r'.routes == r.routes[key := route.key] else r' == r)
  {
  }

  /** A turn that begins and completes with nothing of its key in between has done a `get`: it holds what that hands out,
      the context has served one turn more, and the registry is that of the `get`. */
  lemma BeginThenComplete(s: State, key: Key, route: Route, profile: ProfileId, now: real, e: Reply, max: nat)
    requires Enabled(s, Begin(key, route, profile, now), max) && FreshReply(s, e)
    ensures var s1 := Step(s, Begin(key, route, profile, now)); var s2 := Step(s1, Complete(key, e));
      var (r, got) := Got(s.registry, route, key, profile, now, e);
      && Enabled(s1, Complete(key, e), max)
      && s2.registry == r
      && s2.turns == (if got.Some? then s.turns[key := Holding(route, got.value)] else s.turns)
      && s2.served == (if got.Some? then s.served[got.value.id := (if got.value.id in s.served then s.served[got.value.id] else 0) + 1]
                       else s.served)
  {
    assert s.turns[key := Step(s, Begin(key, route, profile, now)).turns[key]] - {key} == s.turns;
  }

  /** What the other steps of a turn do. */
  lemma OtherSteps(s: State, key: Key, profile: ProfileId, e: Reply, keys: set<Key>)
    ensures Step(s, Finish(key)) == s.(turns := s.turns - {key})
    ensures var s' := Step(s, Drop(keys));
      s' == s.(registry := s'.registry) && s'.registry.sessions == s.registry.sessions - keys && s'.registry.routes == s.registry.routes - keys
    ensures key in s.turns && s.turns[key].Holding? ==>
      var s', t := Step(s, Replace(key, profile, e)), s.turns[key];
      var (r, got) := Replaced(s.registry, t.route, key, profile, t.session, e);
      && s'.turns == s.turns
      && (if got.None? then s' == s
          else s'.registry == r && s'.served == (if got.value.id in s.served then s.served else s.served[got.value.id := 0]))
  {
  }

  lemma {:induction false} RunTogether(s: State, es: seq<Event>, e: Event)
    ensures Run(s, es + [e]) == Step(Run(s, es), e)
    decreases |es|
  {
    hide Step;
    if es == [] {
      assert (es + [e])[1..] == [];
    } else {
      assert (es + [e])[1..] == es[1..] + [e];
      RunTogether(Step(s, es[0]), es[1..], e);
    }
  }

  /** All of `get`, when nothing comes in between. */
  function Got(r: Registry, route: Route, key: Key, profile: ProfileId, now: real, e: Reply): (Registry, Option<Session>) {
    var (r1, existing) := Lookup(r, route, key, now);
    Completed(r1, route, key, profile, existing, e)
  }

  // ---------------------------------------------------------------------------------------------
  // Eviction after a reload
  // ---------------------------------------------------------------------------------------------

  predicate InScope(route: string, only: Option<set<string>>) { only.None? || route in only.value }

  /** Cached sessions whose route is not live any more. */
  function NotIn(r: Registry, live: set<string>, only: Option<set<string>>): set<Key> {
    set k | k in r.routes && k in r.sessions && r.routes[k] !in live && InScope(r.routes[k], only)
  }

  /** Cached sessions made under another session policy than their route has now. */
  function Mismatched(r: Registry, policies: map<string, Policy>, only: Option<set<string>>): set<Key> {
    set k | k in r.routes && k in r.sessions && r.routes[k] in policies && r.sessions[k].policy != policies[r.routes[k]]
            && InScope(r.routes[k], only)
  }

  /** Each of the two evictions of a reap, in any scope: gone is what is in scope and not live, or in scope and of another
      policy than its route has now; what stays is as it was. */
  lemma EvictsExactly(r: Registry, live: set<string>, policies: map<string, Policy>, only: Option<set<string>>, key: Key)
    requires r.sessions.Keys == r.routes.Keys
    ensures var r1, r2 := Evicted(r, NotIn(r, live, only)), Evicted(r, Mismatched(r, policies, only));
      && (key in r1.sessions <==>
            key in r.sessions && (r.routes[key] in live || (only.Some? && r.routes[key] !in only.value)))
      && (key in r2.sessions <==>
            && key in r.sessions
            && (r.routes[key] !in policies || r.sessions[key].policy == policies[r.routes[key]]
                || (only.Some? && r.routes[key] !in only.value)))
      && (key in r1.sessions ==> key in r1.routes && r1.sessions[key] == r.sessions[key] && r1.routes[key] == r.routes[key])
      && (key in r2.sessions ==> key in r2.routes && r2.sessions[key] == r.sessions[key] && r2.routes[key] == r.routes[key])
  {
  }

  /** After both evictions of an unscoped reap, what is cached is exactly what was cached, is live, and has the
      policy of its route. */
  lemma EvictionsLeaveUsable(r: Registry, policies: map<string, Policy>, key: Key)
    requires r.sessions.Keys == r.routes.Keys
    ensures var r1 := Evicted(r, NotIn(r, policies.Keys, None)); var r2 := Evicted(r1, Mismatched(r1, policies, None));
      && r2.sessions.Keys == r2.routes.Keys
      && (key in r2.sessions <==>
            key in r.sessions && r.routes[key] in policies && r.sessions[key].policy == policies[r.routes[key]])
      && (key in r2.sessions ==> r2.sessions[key] == r.sessions[key] && r2.routes[key] == r.routes[key])
  {
  }
}
