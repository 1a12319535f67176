/** Maintenance overrides across live reloads: a tripped breaker masks an ACTIVE route, recovery and reloads
    lift the mask, and a turn that was admitted under the mask must not slip past it because of a reload. */
module Breaker {
  import opened Circuit
  import opened Options

  datatype RouteState = Shadow | Active | Maintenance | Disabled

  datatype Route = Route(key: string, state: RouteState, profile: string)

  function FindRoute(config: seq<Route>, key: string): Option<Route> {
    if config == [] then None
    else if config[0].key == key then Some(config[0])
    else FindRoute(config[1..], key)
  }

  predicate ActiveIn(config: seq<Route>, key: string) {
    var r := FindRoute(config, key);
    r.Some? && r.value.state == Active
  }

  predicate UniqueKeys(config: seq<Route>) {
    forall i, j :: 0 <= i < j < |config| ==> config[i].key != config[j].key
  }

  datatype State = State(
    config: seq<Route>, generation: nat,
    overrides: map<string, RouteState>, tripTimes: map<string, real>, tripTimesMs: map<string, int>,
    cleared: map<string, nat>, tombstones: map<string, string>)

  function Profiles(config: seq<Route>): map<string, string> {
    if config == [] then map[] else Profiles(config[..|config| - 1])[config[|config| - 1].key := config[|config| - 1].profile]
  }

  function Init(config: seq<Route>): State {
    State(config, 0, map[], map[], map[], map[], Profiles(config))
  }

  // ---------------------------------------------------------------------------------------------
  // Trip, recover, reload
  // ---------------------------------------------------------------------------------------------

  /** The breaker of a route tripped; only a route that is ACTIVE now is masked. */
  function Trip(s: State, key: string, mono: real, ms: int): State {
    if !ActiveIn(s.config, key) then s
    else s.(overrides := s.overrides[key := Maintenance],
            tripTimes := s.tripTimes[key := mono], tripTimesMs := s.tripTimesMs[key := ms])
  }

  predicate Recovers(s: State, key: string, now: real, recovery: real) {
    && key in s.overrides && s.overrides[key] == Maintenance
    && key in s.tripTimes && now - s.tripTimes[key] >= recovery
  }

  function Recover(s: State, key: string, now: real, recovery: real): State {
    if !Recovers(s, key, now, recovery) then s
    else s.(overrides := s.overrides - {key}, tripTimes := s.tripTimes - {key}, tripTimesMs := s.tripTimesMs - {key})
  }

  /** A candidate may not give a route key another profile than it ever had. */
  predicate Acceptable(s: State, candidate: seq<Route>) {
    forall r | r in candidate && r.key in s.tombstones :: s.tombstones[r.key] == r.profile
  }

  /** The masks a reload lifts: those of routes that are not ACTIVE in the new configuration. */
  function Lifted(s: State, candidate: seq<Route>): set<string> {
    set k | k in s.overrides && !ActiveIn(candidate, k)
  }

  function Stamped(keys: set<string>, generation: nat): map<string, nat> {
    map k | k in keys :: generation
  }

  function Reload(s: State, candidate: seq<Route>): State {
    if !Acceptable(s, candidate) then s
    else
      var lifted := Lifted(s, candidate);
      State(candidate, s.generation + 1,
            s.overrides - lifted, s.tripTimes - lifted, s.tripTimesMs - lifted,
            s.cleared + Stamped(lifted, s.generation + 1),
            s.tombstones + Profiles(candidate))
  }

  datatype Event =
    | Tripped(key: string, mono: real, ms: int)
    | Recovering(key: string, now: real)
    | Reloaded(candidate: seq<Route>)

  function Step(s: State, e: Event, recovery: real): State {
    match e
    case Tripped(key, mono, ms) => Trip(s, key, mono, ms)
    case Recovering(key, now) => Recover(s, key, now, recovery)
    case Reloaded(candidate) => Reload(s, candidate)
  }

  /** A run; `parse_routes` lets only candidates with distinct keys reach a reload. */
  predicate ValidRun(es: seq<Event>) {
    forall e | e in es && e.Reloaded? :: UniqueKeys(e.candidate)
  }

  /** The state after the first `n` events. */
  function StateAt(config: seq<Route>, es: seq<Event>, recovery: real, n: nat): State
    requires n <= |es|
  {
    if n == 0 then Init(config) else Step(StateAt(config, es, recovery, n - 1), es[n - 1], recovery)
  }

  // ---------------------------------------------------------------------------------------------
  // The invariant
  // ---------------------------------------------------------------------------------------------

  ghost predicate Inv(s: State) {
    && UniqueKeys(s.config)
    && s.overrides.Keys == s.tripTimes.Keys == s.tripTimesMs.Keys
    && (forall k | k in s.overrides :: s.overrides[k] == Maintenance && ActiveIn(s.config, k))
    && (forall r | r in s.config :: r.key in s.tombstones && s.tombstones[r.key] == r.profile)
    && (forall k | k in s.cleared :: s.cleared[k] <= s.generation)
  }

  lemma {:induction false} FindRouteFacts(config: seq<Route>, key: string)
    ensures FindRoute(config, key).Some? ==> FindRoute(config, key).value in config && FindRoute(config, key).value.key == key
    ensures UniqueKeys(config) ==> forall r | r in config && r.key == key :: FindRoute(config, key) == Some(r)
  {
    if config != [] {
      FindRouteFacts(config[1..], key);
      if UniqueKeys(config) {
        forall r | r in config && r.key == key ensures FindRoute(config, key) == Some(r) {
          var i :| 0 <= i < |config| && config[i] == r;
          if i > 0 {
            assert config[1..][i - 1] == r;
            assert r in config[1..];
          }
        }
      }
    }
  }

  lemma {:induction false} ProfilesFacts(config: seq<Route>)
    ensures forall k :: k in Profiles(config) <==> exists r :: r in config && r.key == k
    ensures forall k | k in Profiles(config) :: exists r :: r in config && r.key == k && r.profile == Profiles(config)[k]
    ensures UniqueKeys(config) ==> forall r | r in config :: r.key in Profiles(config) && Profiles(config)[r.key] == r.profile
  {
    if config != [] {
      var front, last := config[..|config| - 1], config[|config| - 1];
      assert config == front + [last];
      assert forall r :: r in config <==> r in front || r == last;
      ProfilesFacts(front);
      forall k | k in Profiles(config) ensures exists r :: r in config && r.key == k && r.profile == Profiles(config)[k] {
        if k == last.key {
          assert last in config;
        } else {
          assert k in Profiles(front);
          var r :| r in front && r.key == k && r.profile == Profiles(front)[k];
          assert r in config;
        }
      }
      if UniqueKeys(config) {
        forall r | r in config ensures r.key in Profiles(config) && Profiles(config)[r.key] == r.profile {
          if r in front {
            var i :| 0 <= i < |front| && front[i] == r;
            assert config[i].key != config[|config| - 1].key;
          }
        }
      }
    }
  }

  lemma InitInv(config: seq<Route>)
    requires UniqueKeys(config)
    ensures Inv(Init(config))
  {
    ProfilesFacts(config);
  }

  lemma ReloadKeeps(s: State, candidate: seq<Route>)
    requires Inv(s) && UniqueKeys(candidate)
    ensures Inv(Reload(s, candidate))
  {
    ProfilesFacts(candidate);
  }

  lemma StepKeeps(s: State, e: Event, recovery: real)
    requires Inv(s) && (e.Reloaded? ==> UniqueKeys(e.candidate))
    ensures Inv(Step(s, e, recovery))
  {
    if e.Reloaded? {
      ReloadKeeps(s, e.candidate);
    }
  }

  /** In every reachable state the three trip maps agree, and every masked route is ACTIVE now. */
  lemma {:induction false} RunKeeps(config: seq<Route>, es: seq<Event>, recovery: real, n: nat)
    requires UniqueKeys(config) && ValidRun(es) && n <= |es|
    ensures Inv(StateAt(config, es, recovery, n))
  {
    if n == 0 {
      InitInv(config);
    } else {
      RunKeeps(config, es, recovery, n - 1);
      assert es[n - 1] in es;
      StepKeeps(StateAt(config, es, recovery, n - 1), es[n - 1], recovery);
    }
  }

  // ---------------------------------------------------------------------------------------------
  // One profile per route key
  // ---------------------------------------------------------------------------------------------

  lemma TombstoneStays(s: State, e: Event, recovery: real, k: string)
    requires Inv(s) && (e.Reloaded? ==> UniqueKeys(e.candidate)) && k in s.tombstones
    ensures var s' := Step(s, e, recovery); k in s'.tombstones && s'.tombstones[k] == s.tombstones[k]
  {
    if e.Reloaded? && Acceptable(s, e.candidate) {
      ProfilesFacts(e.candidate);
    }
  }

  lemma {:induction false} TombstonesStay(config: seq<Route>, es: seq<Event>, recovery: real, m: nat, n: nat, k: string)
    requires UniqueKeys(config) && ValidRun(es) && m <= n <= |es|
    requires k in StateAt(config, es, recovery, m).tombstones
    ensures k in StateAt(config, es, recovery, n).tombstones
    ensures StateAt(config, es, recovery, n).tombstones[k] == StateAt(config, es, recovery, m).tombstones[k]
  {
    if m < n {
      TombstonesStay(config, es, recovery, m, n - 1, k);
      RunKeeps(config, es, recovery, n - 1);
      assert es[n - 1] in es;
      TombstoneStay1(config, es, recovery, n, k);
    }
  }

  lemma TombstoneStay1(config: seq<Route>, es: seq<Event>, recovery: real, n: nat, k: string)
    requires 0 < n <= |es| && (es[n - 1].Reloaded? ==> UniqueKeys(es[n - 1].candidate))
    requires Inv(StateAt(config, es, recovery, n - 1)) && k in StateAt(config, es, recovery, n - 1).tombstones
    ensures k in StateAt(config, es, recovery, n).tombstones
    ensures StateAt(config, es, recovery, n).tombstones[k] == StateAt(config, es, recovery, n - 1).tombstones[k]
  {
    TombstoneStays(StateAt(config, es, recovery, n - 1), es[n - 1], recovery, k);
  }

  /** A route key has one profile for the whole run, also when the route was gone in between. */
  lemma OneProfilePerKey(config: seq<Route>, es: seq<Event>, recovery: real, m: nat, n: nat, r: Route, r': Route)
    requires UniqueKeys(config) && ValidRun(es) && m <= n <= |es|
    requires r in StateAt(config, es, recovery, m).config && r' in StateAt(config, es, recovery, n).config
    requires r.key == r'.key
    ensures r.profile == r'.profile
  {
    RunKeeps(config, es, recovery, m);
    RunKeeps(config, es, recovery, n);
    TombstonesStay(config, es, recovery, m, n, r.key);
  }

  // ---------------------------------------------------------------------------------------------
  // The reload-clear record
  // ---------------------------------------------------------------------------------------------

  /** Event `i` is an accepted reload that lifted the mask of `k`. */
  predicate LiftsAt(config: seq<Route>, es: seq<Event>, recovery: real, i: nat, k: string)
    requires i < |es|
  {
    && es[i].Reloaded?
    && var s := StateAt(config, es, recovery, i);
       Acceptable(s, es[i].candidate) && k in Lifted(s, es[i].candidate)
  }

  /** Some reload from event `m` on, before event `n`, lifted the mask of `k`. */
  ghost predicate LiftedBetween(config: seq<Route>, es: seq<Event>, recovery: real, m: nat, n: nat, k: string)
    requires m <= n <= |es|
  {
    exists i: nat :: m <= i < n && LiftsAt(config, es, recovery, i, k)
  }

  predicate ClearedSince(s: State, k: string, generation: nat) {
    k in s.cleared && s.cleared[k] > generation
  }

  /** The record and the generation counter tell exactly what the reload history tells. */
  lemma {:induction false} RecordIsHistory(config: seq<Route>, es: seq<Event>, recovery: real, m: nat, n: nat, k: string)
    requires UniqueKeys(config) && ValidRun(es) && m <= n <= |es|
    ensures var g := StateAt(config, es, recovery, m).generation;
      && g <= StateAt(config, es, recovery, n).generation
      && (ClearedSince(StateAt(config, es, recovery, n), k, g) <==> LiftedBetween(config, es, recovery, m, n, k))
  {
    hide Step, LiftsAt;
    if m == n {
      RunKeeps(config, es, recovery, n);
    } else {
      hide StateAt, LiftedBetween, Inv, ClearedSince;
      RecordIsHistory(config, es, recovery, m, n - 1, k);
      RecordStep(config, es, recovery, n, k, StateAt(config, es, recovery, m).generation);
    }
  }

  lemma RecordStep(config: seq<Route>, es: seq<Event>, recovery: real, n: nat, k: string, g: nat)
    requires 0 < n <= |es| && g <= StateAt(config, es, recovery, n - 1).generation
    ensures var s, s' := StateAt(config, es, recovery, n - 1), StateAt(config, es, recovery, n);
      && g <= s'.generation
      && (ClearedSince(s', k, g) <==> ClearedSince(s, k, g) || LiftsAt(config, es, recovery, n - 1, k))
  {
  }

  // ---------------------------------------------------------------------------------------------
  // The state a turn acts on
  // ---------------------------------------------------------------------------------------------

  /** A turn keeps its route object and what it was admitted under. */
  datatype Turn = Turn(route: Route, admittedState: Option<RouteState>, admittedGeneration: Option<nat>)

  function OverriddenState(s: State, route: Route): RouteState {
    if route.key in s.overrides then s.overrides[route.key] else route.state
  }

  /** The state after the recovery check of `_effective_turn_state`. */
  function EffectiveState(s: State, turn: Turn): RouteState {
    var state := OverriddenState(s, turn.route);
    if turn.admittedState == Some(Maintenance) && state != Maintenance
       && (!ActiveIn(s.config, turn.route.key)
           || (turn.admittedGeneration.Some? && ClearedSince(s, turn.route.key, turn.admittedGeneration.value)))
    then Maintenance
    else state
  }

  /** What the consumer pins when it accepts an event for route `r` of the current configuration. */
  function Admit(s: State, r: Route): Turn {
    Turn(r, Some(OverriddenState(s, r)), Some(s.generation))
  }

  /** A turn admitted under an open breaker gets through exactly when its route is ACTIVE now, is not masked
      now, and no reload since its admission lifted the mask: only the breaker's own recovery lets it through. */
  lemma MaskedTurnsPassOnlyAfterRecovery(
    config: seq<Route>, es: seq<Event>, recovery: real, m: nat, n: nat, r: Route)
    requires UniqueKeys(config) && ValidRun(es) && m <= n <= |es|
    requires r in StateAt(config, es, recovery, m).config
    requires OverriddenState(StateAt(config, es, recovery, m), r) == Maintenance
    ensures var s := StateAt(config, es, recovery, n);
      var result := EffectiveState(s, Admit(StateAt(config, es, recovery, m), r));
      result != Maintenance <==>
        && r.state == Active && r.key !in s.overrides && ActiveIn(s.config, r.key)
        && !LiftedBetween(config, es, recovery, m, n, r.key)
  {
    RunKeeps(config, es, recovery, m);
    RunKeeps(config, es, recovery, n);
    FindRouteFacts(StateAt(config, es, recovery, m).config, r.key);
    RecordIsHistory(config, es, recovery, m, n, r.key);
  }

  /** A turn admitted unmasked sees the current mask of its route and otherwise the state it was admitted with. */
  lemma UnmaskedTurnsSeeTheMask(
    config: seq<Route>, es: seq<Event>, recovery: real, m: nat, n: nat, r: Route)
    requires UniqueKeys(config) && ValidRun(es) && m <= n <= |es|
    requires r in StateAt(config, es, recovery, m).config
    requires OverriddenState(StateAt(config, es, recovery, m), r) != Maintenance
    ensures var s := StateAt(config, es, recovery, n);
      var result := EffectiveState(s, Admit(StateAt(config, es, recovery, m), r));
      && (result == Maintenance <==> r.key in s.overrides)
      && (result != Maintenance ==> result == r.state)
      && (result == Maintenance ==> ActiveIn(s.config, r.key))
  {
    RunKeeps(config, es, recovery, m);
    RunKeeps(config, es, recovery, n);
    FindRouteFacts(StateAt(config, es, recovery, m).config, r.key);
  }
}
