/** One reap pass after a configuration reload, beside turns and further reloads: it waits for the turns that were
    there, drains what they leave uncontested, and evicts sessions and retires profiles in that scope. */
module Reaper {
  import opened Options

  type Key = string
  type Profile = string
  type TurnId = nat
  type SessionId = nat

  /** What matters of a route in the configuration: whether it is ACTIVE, its session policy and its profile. */
  datatype Cfg = Cfg(active: bool, policy: nat, profile: Profile)

  type Config = map<Key, Cfg>

  /** A turn keeps the route it was admitted under; `resolved` says whether its task shows the route key yet, `locked`
      whether it holds its route lock. */
  datatype Turn = Turn(key: Key, cfg: Cfg, resolved: bool, locked: bool, session: Option<SessionId>)

  datatype Session = Session(route: Key, policy: nat)

  /** The pass waits for the turns it found relevant, then drains key by key, suspended on the lock of `waiting` while
      that is held, then retires profiles in its scope, suspended on the acquisition lock of `retiring` after it chose
      that profile. `start` is the first turn id that was not there yet when the pass began. */
  datatype Pass =
    | NoPass
    | Waiting(start: nat, drain: set<Key>, relevant: set<TurnId>)
    | Draining(start: nat, drain: set<Key>, contested: set<Key>, drained: set<Key>, waiting: Option<Key>)
    | Retiring(start: nat, drain: set<Key>, contested: set<Key>, drained: set<Key>, forced: set<Key>,
               retiring: Option<Profile>)

  /** `changed` is history: the keys whose route a reload changed since the pass began. */
  datatype State = State(
    config: Config,
    tombstones: map<Key, Profile>,
    turns: map<TurnId, Turn>,
    next: nat,
    sessions: map<SessionId, Session>,
    profiles: set<Profile>,
    pass: Pass,
    changed: set<Key>)

  datatype Event =
    | Reload(config: Config)
    | Admit(key: Key)
    | Resolve(t: TurnId)
    | Lock(t: TurnId)
    | Use(t: TurnId, session: SessionId)
    | Finish(t: TurnId)
    | Elsewhere(sessions: set<SessionId>, profiles: set<Profile>)  // what other passes, rotations and exits take away
    | Begin(extra: set<Key>)
    | WaitOver
    | Await(key: Key)
    | Drain(key: Key)
    | GiveUp
    | Evict(forced: set<Key>)
    | Choose(profile: Profile)
    | Retire
    | Keep
    | Done

  // ---------------------------------------------------------------------------------------------
  // Steps
  // ---------------------------------------------------------------------------------------------

  predicate IsLive(config: Config, key: Key) { key in config && config[key].active }

  function Route(config: Config, key: Key): Option<Cfg> { if key in config then Some(config[key]) else None }

  function ChangedBy(before: Config, after: Config): set<Key> {
    set k | k in before.Keys + after.Keys && Route(before, k) != Route(after, k)
  }

  function TombstonesOf(config: Config): map<Key, Profile> { map k | k in config :: config[k].profile }

  function RetiredKeys(s: State): set<Key> { set k | k in s.tombstones && !IsLive(s.config, k) }

  /** Turns that can still touch a key of the pass, as far as their tasks tell. */
  function RelevantTurns(s: State, drain: set<Key>): set<TurnId> {
    set t | t in s.turns && (!s.turns[t].resolved || s.turns[t].key in drain)
  }

  /** The keys of the relevant turns that are still there, and every key if one of them has no key yet. */
  function Contested(s: State, drain: set<Key>, relevant: set<TurnId>): set<Key> {
    if exists t :: t in relevant && t in s.turns && !s.turns[t].resolved then drain
    else set t | t in relevant && t in s.turns :: s.turns[t].key
  }

  /** Sessions in scope whose route cannot prompt any more, or whose policy is not that of their route. */
  predicate Evictable(s: State, scope: set<Key>, n: Session) {
    && n.route in scope
    && (!IsLive(s.config, n.route) || (n.route in s.config && n.policy != s.config[n.route].policy))
  }

  function Scope(p: Pass): set<Key> { if p.Retiring? then p.drained + p.forced else if p.Draining? then p.drained else {} }

  /** No route that could prompt uses the profile. */
  predicate NoActiveRoute(config: Config, p: Profile) {
    forall k :: k in config && config[k].active ==> config[k].profile != p
  }

  /** The check without the acquisition lock, with the scope of the pass: this one is not repeated. */
  predicate Retirable(s: State, p: Profile) {
    && p in s.profiles && NoActiveRoute(s.config, p)
    && (forall k :: k in s.tombstones && s.tombstones[k] == p ==> k in Scope(s.pass))
  }

  /** What can happen, and more: other parts of the router may act at any point, also where the pass keeps the loop. */
  ghost predicate Enabled(s: State, e: Event) {
    match e
    case Reload(config) => forall k :: k in config && k in s.tombstones ==> config[k].profile == s.tombstones[k]
    case Admit(key) => key in s.config
    case Resolve(t) => t in s.turns
    case Lock(t) => t in s.turns && !Held(s, s.turns[t].key)
    case Use(t, n) =>
      && t in s.turns && s.turns[t].cfg.active
      && (n in s.sessions ==> s.sessions[n] == Session(s.turns[t].key, s.turns[t].cfg.policy))
      && (n !in s.sessions ==> forall u :: u in s.turns ==> s.turns[u].session != Some(n))
    case Finish(t) => t in s.turns
    case Elsewhere(_, _) => true
    case Begin(_) => s.pass.NoPass?
    case WaitOver => s.pass.Waiting?
    case Await(key) => s.pass.Draining? && s.pass.waiting.None? && key in s.pass.drain - s.pass.contested
    case Drain(key) =>
      s.pass.Draining? && key in s.pass.drain - s.pass.contested && (s.pass.waiting.Some? ==> s.pass.waiting.value == key)
    case GiveUp => s.pass.Draining? && s.pass.waiting.Some?
    case Evict(_) => s.pass.Draining? && s.pass.waiting.None?
    case Choose(p) => s.pass.Retiring? && s.pass.retiring.None? && Retirable(s, p)
    case Retire => s.pass.Retiring? && s.pass.retiring.Some? && NoActiveRoute(s.config, s.pass.retiring.value)
    case Keep => s.pass.Retiring? && s.pass.retiring.Some?
    case Done => s.pass.Retiring? && s.pass.retiring.None?
  }

  /** Some turn holds the route lock of the key. */
  predicate Held(s: State, key: Key) { exists t :: t in s.turns && s.turns[t].key == key && s.turns[t].locked }

  function Step(s: State, e: Event): State {
    match e
    case Reload(config) =>
      s.(config := config, tombstones := s.tombstones + TombstonesOf(config),
         changed := s.changed + ChangedBy(s.config, config))
    case Admit(key) =>
      if key !in s.config then s
      else s.(turns := s.turns[s.next := Turn(key, s.config[key], false, false, None)], next := s.next + 1)
    case Resolve(t) => if t !in s.turns then s else s.(turns := s.turns[t := s.turns[t].(resolved := true)])
    case Lock(t) => if t !in s.turns then s else s.(turns := s.turns[t := s.turns[t].(resolved := true, locked := true)])
    case Use(t, n) =>
      if t !in s.turns then s
      else
        var i := s.turns[t];
        s.(turns := s.turns[t := i.(session := Some(n))], sessions := s.sessions[n := Session(i.key, i.cfg.policy)],
           profiles := s.profiles + {i.cfg.profile})
    case Finish(t) => s.(turns := s.turns - {t})
    case Elsewhere(ns, ps) => s.(sessions := s.sessions - ns, profiles := s.profiles - ps)
    case Begin(extra) =>
      var drain := RetiredKeys(s) + extra;
      s.(pass := Waiting(s.next, drain, RelevantTurns(s, drain)), changed := {})
    case WaitOver =>
      if !s.pass.Waiting? then s
      else s.(pass := Draining(s.pass.start, s.pass.drain, Contested(s, s.pass.drain, s.pass.relevant), {}, None))
    case Await(key) =>
      if !s.pass.Draining? then s
      else s.(pass := Draining(s.pass.start, s.pass.drain, s.pass.contested, s.pass.drained, Some(key)))
    case Drain(key) =>
      if !s.pass.Draining? then s
      else s.(pass := Draining(s.pass.start, s.pass.drain, s.pass.contested, s.pass.drained + {key}, None))
    case GiveUp =>
      if !s.pass.Draining? then s
      else s.(pass := Draining(s.pass.start, s.pass.drain, s.pass.contested, s.pass.drained, None))
    case Evict(forced) =>
      if !s.pass.Draining? then s
      else
        s.(sessions := map n | n in s.sessions && !Evictable(s, s.pass.drained + forced, s.sessions[n]) :: s.sessions[n],
           pass := Retiring(s.pass.start, s.pass.drain, s.pass.contested, s.pass.drained, forced, None))
    case Choose(p) =>
      if !s.pass.Retiring? then s
      else
        s.(pass := Retiring(s.pass.start, s.pass.drain, s.pass.contested, s.pass.drained, s.pass.forced, Some(p)))
    case Retire =>
      if !s.pass.Retiring? || s.pass.retiring.None? then s
      else
        s.(profiles := s.profiles - {s.pass.retiring.value},
           pass := Retiring(s.pass.start, s.pass.drain, s.pass.contested, s.pass.drained, s.pass.forced, None))
    case Keep =>
      if !s.pass.Retiring? then s
      else s.(pass := Retiring(s.pass.start, s.pass.drain, s.pass.contested, s.pass.drained, s.pass.forced, None))
    case Done => s.(pass := NoPass)
  }

  function Init(config: Config): State {
    State(config, TombstonesOf(config), map[], 0, map[], {}, NoPass, {})
  }

  ghost predicate ValidRun(s: State, es: seq<Event>)
    decreases |es|
  {
    es == [] || (Enabled(s, es[0]) && ValidRun(Step(s, es[0]), es[1..]))
  }

  function Run(s: State, es: seq<Event>): State
    decreases |es|
  {
    if es == [] then s else Run(Step(s, es[0]), es[1..])
  }

  // ---------------------------------------------------------------------------------------------
  // Invariant
  // ---------------------------------------------------------------------------------------------

  ghost predicate Profiles(s: State) {
    && (forall k :: k in s.config ==> k in s.tombstones && s.tombstones[k] == s.config[k].profile)
    && (forall t :: t in s.turns ==>
          s.turns[t].key in s.tombstones && s.tombstones[s.turns[t].key] == s.turns[t].cfg.profile)
  }

  /** A turn that holds a session is active, and the session, while cached, is its route's under its policy. */
  ghost predicate Holding(s: State) {
    forall t :: t in s.turns && s.turns[t].session.Some? ==>
      s.turns[t].cfg.active
      && (s.turns[t].session.value in s.sessions ==>
            s.sessions[s.turns[t].session.value] == Session(s.turns[t].key, s.turns[t].cfg.policy))
  }

  /** Turns admitted since the pass began have the current route, unless a reload changed it. */
  ghost predicate Current(s: State) {
    !s.pass.NoPass? ==>
      forall t :: t in s.turns && t >= s.pass.start && s.turns[t].key !in s.changed ==>
        Route(s.config, s.turns[t].key) == Some(s.turns[t].cfg)
  }

  /** Older turns on a key of the pass are waited for, and contest the key if they are still there. */
  ghost predicate Waited(s: State) {
    match s.pass
    case NoPass => true
    case Waiting(start, drain, relevant) =>
      forall t :: t in s.turns && t < start && s.turns[t].key in drain ==> t in relevant
    case Draining(start, drain, contested, drained, _) =>
      drained <= drain - contested
      && forall t :: t in s.turns && t < start && s.turns[t].key in drain ==> s.turns[t].key in contested
    case Retiring(start, drain, contested, drained, _, _) =>
      drained <= drain - contested
      && forall t :: t in s.turns && t < start && s.turns[t].key in drain ==> s.turns[t].key in contested
  }

  /** The keys of a chosen profile are in the scope of the pass, but for those that a reload brought since. */
  ghost predicate Chosen(s: State) {
    s.pass.Retiring? && s.pass.retiring.Some? ==>
      forall k :: k in s.tombstones && s.tombstones[k] == s.pass.retiring.value ==> k in Scope(s.pass) || k in s.changed
  }

  ghost predicate Numbered(s: State) {
    (forall t :: t in s.turns ==> t < s.next) && (!s.pass.NoPass? ==> s.pass.start <= s.next)
  }

  ghost predicate Inv(s: State) {
    Profiles(s) && Holding(s) && Current(s) && Waited(s) && Chosen(s) && Numbered(s)
  }

  lemma ReloadKeeps(s: State, e: Event)
    requires Inv(s) && e.Reload? && Enabled(s, e)
    ensures Inv(Step(s, e))
  {
    var s' := Step(s, e);
    forall k | k in s'.tombstones ensures (k in s.tombstones && s'.tombstones[k] == s.tombstones[k]) || k in s'.changed {
      assert k !in s.tombstones ==> Route(s.config, k) == None;
    }
  }

  lemma AdmitKeeps(s: State, e: Event)
    requires Inv(s) && e.Admit? && Enabled(s, e)
    ensures Inv(Step(s, e))
  {
  }

  lemma TurnKeeps(s: State, e: Event)
    requires Inv(s) && (e.Resolve? || e.Lock? || e.Finish?) && Enabled(s, e)
    ensures Inv(Step(s, e))
  {
  }

  lemma UseKeeps(s: State, e: Event)
    requires Inv(s) && (e.Use? || e.Elsewhere?) && Enabled(s, e)
    ensures Inv(Step(s, e))
  {
  }

  lemma WaitKeeps(s: State, e: Event)
    requires Inv(s) && Enabled(s, e) && (e.Begin? || e.WaitOver?)
    ensures Inv(Step(s, e))
  {
  }

  lemma DrainKeeps(s: State, e: Event)
    requires Inv(s) && Enabled(s, e) && (e.Await? || e.Drain? || e.GiveUp?)
    ensures Inv(Step(s, e))
  {
  }

  lemma EvictKeeps(s: State, e: Event)
    requires Inv(s) && Enabled(s, e) && (e.Evict? || e.Done?)
    ensures Inv(Step(s, e))
  {
  }

  lemma RetireKeeps(s: State, e: Event)
    requires Inv(s) && Enabled(s, e) && (e.Choose? || e.Retire? || e.Keep?)
    ensures Inv(Step(s, e))
  {
  }

  lemma StepKeeps(s: State, e: Event)
    requires Inv(s) && Enabled(s, e)
    ensures Inv(Step(s, e))
  {
    hide *;
    match e
    case Reload(_) => ReloadKeeps(s, e);
    case Admit(_) => AdmitKeeps(s, e);
    case Resolve(_) => TurnKeeps(s, e);
    case Lock(_) => TurnKeeps(s, e);
    case Finish(_) => TurnKeeps(s, e);
    case Use(_, _) => UseKeeps(s, e);
    case Elsewhere(_, _) => UseKeeps(s, e);
    case Begin(_) => WaitKeeps(s, e);
    case WaitOver => WaitKeeps(s, e);
    case Await(_) => DrainKeeps(s, e);
    case Drain(_) => DrainKeeps(s, e);
    case GiveUp => DrainKeeps(s, e);
    case Evict(_) => EvictKeeps(s, e);
    case Choose(_) => RetireKeeps(s, e);
    case Retire => RetireKeeps(s, e);
    case Keep => RetireKeeps(s, e);
    case Done => EvictKeeps(s, e);
  }

  lemma {:induction false} RunKeeps(s: State, es: seq<Event>)
    requires Inv(s) && ValidRun(s, es)
    ensures Inv(Run(s, es))
    decreases |es|
  {
    hide Inv, Step, Enabled;
    if es != [] {
      StepKeeps(s, es[0]);
      RunKeeps(Step(s, es[0]), es[1..]);
    }
  }

  // ---------------------------------------------------------------------------------------------
  // What it is for
  // ---------------------------------------------------------------------------------------------

  /** The route that the turn was admitted under is the one of the current configuration, as far as sessions go. */
  predicate RouteStands(s: State, t: TurnId)
    requires t in s.turns
  {
    IsLive(s.config, s.turns[t].key) && s.config[s.turns[t].key].policy == s.turns[t].cfg.policy
  }

  /** The exact condition, over every run: a pass evicts the session that a turn in flight holds if and only if the
      turn's key is in its scope and the current configuration does not have the key ACTIVE under the turn's policy. */
  lemma EvictionExactly(config: Config, es: seq<Event>, forced: set<Key>, t: TurnId)
    requires ValidRun(Init(config), es)
    requires var s := Run(Init(config), es);
      Enabled(s, Evict(forced)) && t in s.turns && s.turns[t].session.Some? && s.turns[t].session.value in s.sessions
    ensures var s := Run(Init(config), es);
      s.turns[t].session.value !in Step(s, Evict(forced)).sessions
      <==> s.turns[t].key in s.pass.drained + forced && !RouteStands(s, t)
  {
    RunKeeps(Init(config), es);
    hide Run, ValidRun;
  }

  /** So an unforced pass spares every turn whose route no reload changed while it was under way. */
  lemma EvictionSparesTurns(config: Config, es: seq<Event>, forced: set<Key>, t: TurnId)
    requires ValidRun(Init(config), es)
    requires var s := Run(Init(config), es);
      Enabled(s, Evict(forced)) && t in s.turns && s.turns[t].session.Some? && s.turns[t].session.value in s.sessions
    ensures var s := Run(Init(config), es);
      s.turns[t].session.value in Step(s, Evict(forced)).sessions || s.turns[t].key in forced || s.turns[t].key in s.changed
  {
    EvictionExactly(config, es, forced, t);
    RunKeeps(Init(config), es);
    var s := Run(Init(config), es);
    hide Run, ValidRun, Evictable;
  }

  /** And a profile is retired under an active turn only if the turn's key is forced or its route was changed, reloads
      between the check of the scope and the check under the acquisition lock included. */
  lemma RetirementSparesTurns(config: Config, es: seq<Event>, t: TurnId)
    requires ValidRun(Init(config), es)
    requires var s := Run(Init(config), es);
      Enabled(s, Retire) && t in s.turns && s.turns[t].cfg.active && s.turns[t].cfg.profile == s.pass.retiring.value
    ensures var s := Run(Init(config), es); s.turns[t].key in s.pass.forced || s.turns[t].key in s.changed
  {
    RunKeeps(Init(config), es);
    var s := Run(Init(config), es);
    hide Run, ValidRun;
  }

  // ---------------------------------------------------------------------------------------------
  // The proviso is needed
  // ---------------------------------------------------------------------------------------------

  predicate FromOutside(e: Event) {
    e.Reload? || e.Admit? || e.Resolve? || e.Lock? || e.Use? || e.Finish? || e.Elsewhere?
  }

  /** The pass is suspended: on turns it found relevant, on a route lock, or on an acquisition lock. */
  predicate Suspended(p: Pass) {
    match p
    case NoPass => true
    case Waiting(_, _, relevant) => relevant != {}
    case Draining(_, _, _, _, waiting) => waiting.Some?
    case Retiring(_, _, _, _, _, retiring) => retiring.Some?
  }

  /** A step that the event loop really offers: others act only while the pass is suspended, the wait ends when its
      turns have, a lock is waited for only while it is held and drained only when it is free, sessions are used under
      the route lock, and the pass evicts when it has drained what it can. */
  ghost predicate Offered(s: State, e: Event) {
    && Enabled(s, e)
    && (FromOutside(e) ==> Suspended(s.pass))
    && match e
       case Use(t, _) => s.turns[t].locked
       case WaitOver => forall t :: t in s.pass.relevant ==> t !in s.turns
       case Await(key) => Held(s, key)
       case Drain(key) => !Held(s, key)
       case Evict(forced) => forced == {} && s.pass.drained == s.pass.drain - s.pass.contested
       case _ => true
  }

  ghost predicate OfferedRun(s: State, es: seq<Event>)
    decreases |es|
  {
    es == [] || (Offered(s, es[0]) && OfferedRun(Step(s, es[0]), es[1..]))
  }

  /** A run that ends before an unforced eviction of a session that a turn in flight holds. */
  ghost predicate Truncates(s: State, es: seq<Event>, n: SessionId) {
    && OfferedRun(s, es)
    && var s' := Run(s, es);
       && Offered(s', Evict({})) && n in s'.sessions && n !in Step(s', Evict({})).sessions
       && exists t :: t in s'.turns && s'.turns[t].session == Some(n)
  }

  lemma Back(s: State, e: Event, es: seq<Event>, n: SessionId) returns (es': seq<Event>)
    requires Offered(s, e) && Truncates(Step(s, e), es, n)
    ensures Truncates(s, es', n)
  {
    es' := [e] + es;
    assert es'[1..] == es;
    hide Step, Offered;
  }

  /** Another run from `s` is as good as one from `s'`. */
  ghost predicate Leads(s: State, s': State, n: SessionId) {
    forall es :: Truncates(s', es, n) ==> exists es0 :: Truncates(s, es0, n)
  }

  lemma LeadsBack(s: State, e: Event, s': State, n: SessionId)
    requires Offered(s, e) && Leads(Step(s, e), s', n)
    ensures Leads(s, s', n)
  {
    hide Step, Offered, Truncates;
    forall es | Truncates(s', es, n) ensures exists es0 :: Truncates(s, es0, n) {
      var es1 :| Truncates(Step(s, e), es1, n);
      var es0 := Back(s, e, es1, n);
    }
  }

  /** Two keys with their profiles. */
  datatype Two = Two(a: Key, b: Key, p: Profile, q: Profile) {
    /** The order of the drain is that of the keys; `a` is the first. */
    predicate Valid() { a != b }

    function Off(): Cfg { Cfg(false, 0, p) }

    function On(): Cfg { Cfg(true, 0, p) }

    function Other(): Cfg { Cfg(true, 1, q) }

    /** `a` is retired, `b` is live. */
    function Before(): Config { map[a := Off(), b := Other()] }

    /** Both are live. */
    function Between(): Config { map[a := On(), b := Other()] }

    function Tombs(): map<Key, Profile> { map[a := p, b := q] }

    function Onlooker(): Turn { Turn(b, Other(), true, true, None) }

    function Newcomer(): Turn { Turn(b, Other(), false, false, None) }

    function User(n: SessionId): Turn { Turn(a, On(), true, true, Some(n)) }

    function Waits(): Pass { Draining(1, {a, b}, {}, {a}, Some(b)) }
  }

  lemma BeginWaits(w: Two, s: State)
    requires w.Valid() && s == State(w.Before(), w.Tombs(), map[0 := w.Onlooker()], 1, map[], {}, NoPass, {})
    ensures Offered(s, Begin({w.b})) && Step(s, Begin({w.b})) == s.(pass := Waiting(1, {w.a, w.b}, {0}))
  {
    assert RetiredKeys(s) == {w.a} && {w.a} + {w.b} == {w.a, w.b};
    assert RelevantTurns(s, {w.a, w.b}) == {0};
  }

  /** `a` is retired and the policy of `b` was just changed: the pass waits for a turn on `b`, with another one
      behind it. */
  lemma PassBegins(w: Two, n: SessionId, s: State) returns (s': State)
    requires w.Valid() && s == Init(w.Before())
    ensures s' == State(w.Before(), w.Tombs(), map[0 := w.Onlooker(), 1 := w.Newcomer()], 2, map[], {},
                        Waiting(1, {w.a, w.b}, {0}), {})
    ensures Leads(s, s', n)
  {
    var s1 := Step(s, Admit(w.b));
    var s2 := Step(s1, Lock(0));
    var s3 := Step(s2, Begin({w.b}));
    assert s.tombstones == w.Tombs();
    BeginWaits(w, s2);
    hide RetiredKeys, RelevantTurns;
    s' := Step(s3, Admit(w.b));
    assert s'.turns == map[0 := w.Onlooker(), 1 := w.Newcomer()];
    assert Offered(s, Admit(w.b)) && Offered(s1, Lock(0)) && Offered(s2, Begin({w.b})) && Offered(s3, Admit(w.b));
    hide *;
    LeadsBack(s3, Admit(w.b), s', n);
    LeadsBack(s2, Begin({w.b}), s', n);
    LeadsBack(s1, Lock(0), s', n);
    LeadsBack(s, Admit(w.b), s', n);
  }

  /** The turn it waits for ends, the next one has the lock, and the drain begins. */
  lemma WaitEnds(w: Two, n: SessionId, s: State) returns (s': State)
    requires w.Valid()
    requires s == State(w.Before(), w.Tombs(), map[0 := w.Onlooker(), 1 := w.Newcomer()], 2, map[], {},
                        Waiting(1, {w.a, w.b}, {0}), {})
    ensures s' == State(w.Before(), w.Tombs(), map[1 := w.Onlooker()], 2, map[], {},
                        Draining(1, {w.a, w.b}, {}, {}, None), {})
    ensures Leads(s, s', n)
  {
    var s1 := Step(s, Finish(0));
    var s2 := Step(s1, Lock(1));
    assert s2.turns == map[1 := w.Onlooker()];
    assert Contested(s2, {w.a, w.b}, {0}) == {};
    s' := Step(s2, WaitOver);
    assert Offered(s, Finish(0)) && Offered(s1, Lock(1)) && Offered(s2, WaitOver);
    hide *;
    LeadsBack(s2, WaitOver, s', n);
    LeadsBack(s1, Lock(1), s', n);
    LeadsBack(s, Finish(0), s', n);
  }

  /** `a` is drained and the pass is suspended on the lock of `b`. */
  lemma DrainAndWait(w: Two, n: SessionId, s: State) returns (s': State)
    requires w.Valid() && s == State(w.Before(), w.Tombs(), map[1 := w.Onlooker()], 2, map[], {},
                        Draining(1, {w.a, w.b}, {}, {}, None), {})
    ensures s' == s.(pass := w.Waits())
    ensures Leads(s, s', n)
  {
    var s1 := Step(s, Drain(w.a));
    assert {} + {w.a} == {w.a};
    s' := Step(s1, Await(w.b));
    assert s1.turns[1].locked;
    assert Offered(s, Drain(w.a)) && Offered(s1, Await(w.b));
    hide *;
    LeadsBack(s1, Await(w.b), s', n);
    LeadsBack(s, Drain(w.a), s', n);
  }

  /** Both configurations give the two keys their profiles. */
  lemma SameTombs(w: Two)
    requires w.Valid()
    ensures w.Tombs() + TombstonesOf(w.Between()) == w.Tombs() && w.Tombs() + TombstonesOf(w.Before()) == w.Tombs()
  {
  }

  lemma ReloadOffered(w: Two, s: State, config: Config)
    requires w.Valid() && s.tombstones == w.Tombs() && s.pass == w.Waits() && (config == w.Between() || config == w.Before())
    ensures Offered(s, Reload(config))
    ensures var s' := Step(s, Reload(config));
      s'.config == config && s'.tombstones == w.Tombs() && s'.turns == s.turns && s'.next == s.next
      && s'.sessions == s.sessions && s'.profiles == s.profiles && s'.pass == s.pass
  {
    SameTombs(w);
    hide ChangedBy, TombstonesOf;
  }

  /** A turn on the active `a` starts and uses its session. */
  lemma TurnUses(w: Two, n: SessionId, s: State) returns (s': State)
    requires w.Valid() && s == State(w.Between(), w.Tombs(), map[1 := w.Onlooker()], 2, map[], {}, w.Waits(), s.changed)
    ensures s'.config == w.Between() && s'.tombstones == w.Tombs() && s'.pass == s.pass
    ensures s'.turns == map[1 := w.Onlooker(), 2 := w.User(n)]
    ensures s'.sessions == map[n := Session(w.a, 0)]
    ensures Leads(s, s', n)
  {
    var s1 := Step(s, Admit(w.a));
    var s2 := Step(s1, Lock(2));
    s' := Step(s2, Use(2, n));
    assert Offered(s, Admit(w.a)) && Offered(s1, Lock(2)) && Offered(s2, Use(2, n));
    hide *;
    LeadsBack(s2, Use(2, n), s', n);
    LeadsBack(s1, Lock(2), s', n);
    LeadsBack(s, Admit(w.a), s', n);
  }

  /** A reload activates `a`, and a turn on it starts and uses its session. */
  lemma TurnStarts(w: Two, n: SessionId, s: State) returns (s': State)
    requires w.Valid() && s == State(w.Before(), w.Tombs(), map[1 := w.Onlooker()], 2, map[], {},
                        w.Waits(), {})
    ensures s'.config == w.Between() && s'.tombstones == w.Tombs() && s'.pass == s.pass
    ensures s'.turns == map[1 := w.Onlooker(), 2 := w.User(n)]
    ensures s'.sessions == map[n := Session(w.a, 0)]
    ensures Leads(s, s', n)
  {
    ReloadOffered(w, s, w.Between());
    s' := TurnUses(w, n, Step(s, Reload(w.Between())));
    hide *;
    LeadsBack(s, Reload(w.Between()), s', n);
  }

  /** The next reload retires `a` again, the turn on `b` ends, and the pass drains `b`. */
  lemma PassEnds(w: Two, n: SessionId, s: State) returns (s': State)
    requires w.Valid() && s.config == w.Between() && s.tombstones == w.Tombs()
    requires s.turns == map[1 := w.Onlooker(), 2 := w.User(n)]
    requires s.sessions == map[n := Session(w.a, 0)] && s.pass == w.Waits()
    ensures s'.config == w.Before() && s'.turns == map[2 := w.User(n)]
    ensures s'.sessions == s.sessions && s'.pass == Draining(1, {w.a, w.b}, {}, {w.a, w.b}, None)
    ensures Leads(s, s', n)
  {
    ReloadOffered(w, s, w.Before());
    var s1 := Step(s, Reload(w.Before()));
    hide ChangedBy, TombstonesOf, Route;
    s' := LastDrain(w, n, s1);
    hide *;
    LeadsBack(s, Reload(w.Before()), s', n);
  }

  lemma LastDrain(w: Two, n: SessionId, s: State) returns (s': State)
    requires w.Valid() && s.turns == map[1 := w.Onlooker(), 2 := w.User(n)] && s.pass == w.Waits()
    ensures s'.config == s.config && s'.turns == map[2 := w.User(n)] && s'.sessions == s.sessions
    ensures s'.pass == Draining(1, {w.a, w.b}, {}, {w.a, w.b}, None)
    ensures Leads(s, s', n)
  {
    var s1 := Step(s, Finish(1));
    assert s1.turns == map[2 := w.User(n)];
    assert !Held(s1, w.b);
    hide Held;
    assert {w.a} + {w.b} == {w.a, w.b};
    s' := Step(s1, Drain(w.b));
    assert Offered(s, Finish(1)) && Offered(s1, Drain(w.b));
    hide *;
    LeadsBack(s1, Drain(w.b), s', n);
    LeadsBack(s, Finish(1), s', n);
  }

  /** A key that was drained, activated again by one reload and retired again by the next while the pass is suspended on
      the lock of another key, loses the session of the turn that was admitted in between. */
  lemma FlipFlopTruncates(w: Two, n: SessionId)
    requires w.Valid()
    ensures exists es :: Truncates(Init(w.Before()), es, n)
  {
    var s0 := Init(w.Before());
    var s5 := PassBegins(w, n, s0);
    var s1 := WaitEnds(w, n, s5);
    var s2 := DrainAndWait(w, n, s1);
    var s3 := TurnStarts(w, n, s2);
    var s4 := PassEnds(w, n, s3);
    assert s4.turns[2].session == Some(n);
    assert Truncates(s4, [], n);
    hide *;
    var es :| Truncates(s3, es, n);
    es :| Truncates(s1, es, n);
  }
}
