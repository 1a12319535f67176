/** The router's breaker and reload fields, updated in place. Each method is one stretch without a
    suspension and is proved against the state machine of `Breaker`. */
module BreakerRuntime {
  import opened Circuit
  import opened Breaker
  import opened BreakerMasks
  import opened Options

  /** The keys among `routes` that are not ACTIVE and were masked. */
  function NonActiveMasked(routes: seq<Route>, masked: set<string>): set<string> {
    set r | r in routes && r.state != Active && r.key in masked :: r.key
  }

  function KeysOf(routes: seq<Route>): set<string> {
    set r | r in routes :: r.key
  }

  /** What the two clearing loops of a reload remove is what the state machine calls lifted. */
  lemma ClearedIsLifted(s: State, candidate: seq<Route>)
    requires UniqueKeys(candidate)
    ensures Lifted(s, candidate)
         == NonActiveMasked(candidate, s.overrides.Keys) + (s.overrides.Keys - KeysOf(candidate))
  {
    forall k | k in s.overrides
      ensures !ActiveIn(candidate, k) <==> k in NonActiveMasked(candidate, s.overrides.Keys) || k !in KeysOf(candidate)
    {
      FindRouteFacts(candidate, k);
      if k in KeysOf(candidate) {
        var r :| r in candidate && r.key == k;
        assert FindRoute(candidate, k) == Some(r);
      }
    }
  }

  /** The masks in `gone` are lifted and recorded under the current generation. */
  function LiftAll(s: State, gone: set<string>): State {
    s.(overrides := s.overrides - gone, tripTimes := s.tripTimes - gone, tripTimesMs := s.tripTimesMs - gone,
       cleared := s.cleared + Stamped(gone, s.generation))
  }

  lemma LiftNone(s: State)
    ensures LiftAll(s, {}) == s
  {
    assert s.overrides - {} == s.overrides;
    assert s.tripTimes - {} == s.tripTimes;
    assert s.tripTimesMs - {} == s.tripTimesMs;
    assert s.cleared + Stamped({}, s.generation) == s.cleared;
  }

  lemma LiftInTwo(s: State, a: set<string>, b: set<string>)
    ensures LiftAll(LiftAll(s, a), b) == LiftAll(s, a + b)
  {
    assert s.overrides - a - b == s.overrides - (a + b);
    assert s.tripTimes - a - b == s.tripTimes - (a + b);
    assert s.tripTimesMs - a - b == s.tripTimesMs - (a + b);
    assert s.cleared + Stamped(a, s.generation) + Stamped(b, s.generation)
        == s.cleared + Stamped(a + b, s.generation);
  }

  /** A reload swaps the configuration, then lifts what the new one makes void. */
  function Swapped(s: State, candidate: seq<Route>): State {
    s.(config := candidate, generation := s.generation + 1, tombstones := s.tombstones + Profiles(candidate))
  }

  lemma ReloadIsSwapAndLift(s: State, candidate: seq<Route>)
    requires UniqueKeys(candidate) && Acceptable(s, candidate)
    ensures Reload(s, candidate)
         == LiftAll(LiftAll(Swapped(s, candidate), NonActiveMasked(candidate, s.overrides.Keys)),
                    s.overrides.Keys - NonActiveMasked(candidate, s.overrides.Keys) - KeysOf(candidate))
  {
    var gone := NonActiveMasked(candidate, s.overrides.Keys);
    var absent := s.overrides.Keys - gone - KeysOf(candidate);
    ClearedIsLifted(s, candidate);
    assert gone + absent == Lifted(s, candidate);
    LiftInTwo(Swapped(s, candidate), gone, absent);
  }

  ghost predicate AllMaintenance(overrides: map<string, RouteState>) {
    forall k | k in overrides :: overrides[k] == Maintenance
  }

  /** The masks of the first `i` routes that are not ACTIVE are lifted from `before`. */
  ghost predicate LiftedUpTo(before: State, i: nat, s: State) {
    && i <= |before.config| && AllMaintenance(before.overrides)
    && s == LiftAll(before, NonActiveMasked(before.config[..i], before.overrides.Keys))
  }

  lemma NextLift(before: State, i: nat, s: State)
    requires LiftedUpTo(before, i, s) && i < |before.config|
    ensures var r := before.config[i];
      if r.state != Active && r.key in s.overrides then
        s.overrides[r.key] == Maintenance && LiftedUpTo(before, i + 1, LiftAll(s, {r.key}))
      else LiftedUpTo(before, i + 1, s)
  {
    var masked, r := before.overrides.Keys, before.config[i];
    var gone, next := NonActiveMasked(before.config[..i], masked), NonActiveMasked(before.config[..i + 1], masked);
    hide NonActiveMasked;
    hide LiftAll, AllMaintenance;
    if r.state != Active && r.key in s.overrides {
      assert next == gone + {r.key};
      LiftInTwo(before, gone, {r.key});
    } else {
      assert next == gone;
    }
  }

  class Router {
    const recoverySeconds: real
    const circuit: CircuitBreaker
    var config: seq<Route>
    var generation: nat
    var overrides: map<string, RouteState>
    var tripTimes: map<string, real>
    var tripTimesMs: map<string, int>
    var reloadCleared: map<string, nat>
    var tombstones: map<string, string>

    ghost function View(): State
      reads this
    {
      State(config, generation, overrides, tripTimes, tripTimesMs, reloadCleared, tombstones)
    }

    ghost predicate Valid()
      reads this, circuit
    {
      Inv(View()) && circuit.Valid()
    }

    constructor (config: seq<Route>, circuit: CircuitBreaker, recoverySeconds: real)
      requires UniqueKeys(config) && circuit.Valid()
      ensures Valid() && View() == Init(config) && this.circuit == circuit && this.recoverySeconds == recoverySeconds
    {
      this.config, this.circuit, this.recoverySeconds := config, circuit, recoverySeconds;
      generation, overrides, tripTimes, tripTimesMs := 0, map[], map[], map[];
      reloadCleared, tombstones := map[], Profiles(config);
      new;
      InitInv(config);
    }

    /** Every key of the new configuration keeps its profile from now on. */
    method RecordTombstones()
      modifies `tombstones
      ensures tombstones == old(tombstones) + Profiles(config)
    {
      for i := 0 to |config|
        invariant tombstones == old(tombstones) + Profiles(config[..i])
      {
        assert config[..i + 1][..i] == config[..i];
        tombstones := tombstones[config[i].key := config[i].profile];
      }
      assert config[..|config|] == config;
    }

    method Lift(key: string)
      modifies `overrides, `tripTimes, `tripTimesMs, `reloadCleared
      ensures View() == LiftAll(old(View()), {key})
    {
      overrides := overrides - {key};
      tripTimes := tripTimes - {key};
      tripTimesMs := tripTimesMs - {key};
      reloadCleared := reloadCleared[key := generation];
      assert reloadCleared == old(reloadCleared) + Stamped({key}, generation);
    }

    /** The first clearing loop: routes that are in the new configuration but not ACTIVE. */
    method LiftNonActive()
      requires AllMaintenance(overrides)
      modifies `overrides, `tripTimes, `tripTimesMs, `reloadCleared
      ensures View() == LiftAll(old(View()), NonActiveMasked(config, old(overrides).Keys))
    {
      ghost var before := View();
      LiftNone(before);
      assert NonActiveMasked(config[..0], overrides.Keys) == {};
      hide LiftAll, NonActiveMasked, AllMaintenance;
      for i := 0 to |config|
        invariant LiftedUpTo(before, i, View())
      {
        NextLift(before, i, View());
        var route := config[i];
        if route.state != Active && route.key in overrides && overrides[route.key] == Maintenance {
          Lift(route.key);
        }
      }
      assert config[..|config|] == config;
    }

    /** The second clearing loop: masked keys the new configuration does not have at all. */
    method LiftAbsent()
      requires AllMaintenance(overrides)
      modifies `overrides, `tripTimes, `tripTimesMs, `reloadCleared
      ensures View() == LiftAll(old(View()), old(overrides).Keys - KeysOf(config))
    {
      ghost var before, masked := View(), overrides.Keys;
      var newKeys := KeysOf(config);
      var todo := overrides.Keys;
      LiftNone(before);
      assert (masked - todo) - newKeys == {};
      hide LiftAll;
      while todo != {}
        invariant todo <= masked
        invariant View() == LiftAll(before, (masked - todo) - newKeys)
        decreases todo
      {
        var key :| key in todo;
        ghost var gone := (masked - todo) - newKeys;
        todo := todo - {key};
        if key !in newKeys {
          Lift(key);
          LiftInTwo(before, gone, {key});
          assert (masked - todo) - newKeys == gone + {key};
        } else {
          assert (masked - todo) - newKeys == gone;
        }
      }
      assert (masked - todo) - newKeys == masked - newKeys;
    }

    /** `_do_reload_config`: swap the configuration and lift the masks it makes void. */
    method DoReloadConfig(candidate: seq<Route>)
      requires Valid() && UniqueKeys(candidate) && Acceptable(View(), candidate)
      modifies this
      ensures View() == Reload(old(View()), candidate) && Valid()
    {
      ghost var before := View();
      ReloadKeeps(before, candidate);
      ReloadIsSwapAndLift(before, candidate);
      assert AllMaintenance(before.overrides);
      hide Reload, Inv, LiftAll;
      generation := generation + 1;
      config := candidate;
      RecordTombstones();
      assert View() == Swapped(before, candidate);
      LiftNonActive();
      LiftAbsent();
    }

    /** `_reload_config_locked` after parsing: refuse a candidate that moves a known key to another profile. */
    method ReloadConfig(candidate: seq<Route>) returns (accepted: bool)
      requires Valid() && UniqueKeys(candidate)
      modifies this
      ensures accepted <==> Acceptable(old(View()), candidate)
      ensures View() == Reload(old(View()), candidate) && Valid()
    {
      for i := 0 to |candidate|
        invariant View() == old(View()) && Valid()
        invariant forall j | 0 <= j < i ::
          candidate[j].key in tombstones ==> tombstones[candidate[j].key] == candidate[j].profile
      {
        var route := candidate[i];
        if route.key in tombstones && tombstones[route.key] != route.profile {
          return false;
        }
      }
      DoReloadConfig(candidate);
      accepted := true;
    }

    /** A tripped route is masked when it is ACTIVE in the current configuration, and otherwise left alone. */
    method MaskIfActive(key: string, mono: real, ms: int)
      requires Inv(View())
      modifies `overrides, `tripTimes, `tripTimesMs
      ensures Inv(View()) && View() == Breaker.Trip(old(View()), key, mono, ms)
      ensures overrides == if ListsActive(config, key) then old(overrides)[key := Maintenance] else old(overrides)
      ensures tripTimes == if ListsActive(config, key) then old(tripTimes)[key := mono] else old(tripTimes)
      ensures tripTimesMs == if ListsActive(config, key) then old(tripTimesMs)[key := ms] else old(tripTimesMs)
    {
      StepKeeps(View(), Tripped(key, mono, ms), recoverySeconds);
      ListsActiveIsActiveIn(config, key);
      hide Inv;
      var current := FindRoute(config, key);
      if current.Some? && current.value.state == Active {
        overrides := overrides[key := Maintenance];
        tripTimes := tripTimes[key := mono];
        tripTimesMs := tripTimesMs[key := ms];
      }
    }

    /** The breaker part of `_handle_hermes_failure`: the failure is recorded, and the route is masked exactly
        when it is ACTIVE now and its failures since the last success within the window reach the threshold. */
    method HandleHermesFailure(key: string, now: real, mono: real, ms: int) returns (trip: Circuit.Trip)
      requires Valid()
      modifies this, circuit
      ensures Valid()
      ensures circuit.history == old(circuit.history)[key := PastOf(old(circuit.history), key) + [now]]
      ensures circuit.steady == (old(circuit.steady) && NotBefore(old(circuit.clock), now))
      ensures circuit.steady ==>
        (trip.Trip? <==> |InWindow(circuit.history[key], now - circuit.windowSeconds)| >= circuit.failures)
      ensures unchanged(`config, `generation, `reloadCleared, `tombstones)
      ensures var masks := trip.Trip? && ListsActive(config, key);
        && overrides == (if masks then old(overrides)[key := Maintenance] else old(overrides))
        && tripTimes == (if masks then old(tripTimes)[key := mono] else old(tripTimes))
        && tripTimesMs == (if masks then old(tripTimesMs)[key := ms] else old(tripTimesMs))
      ensures View() == if trip.Trip? then Breaker.Trip(old(View()), key, mono, ms) else old(View())
    {
      hide Inv, InWindow, EntriesOk, Breaker.Trip, ListsActive;
      trip := circuit.RecordFailure(key, now);
      if trip.Trip? {
        MaskIfActive(key, mono, ms);
      }
    }

    /** `_maybe_clear_breaker_override`: recovery lifts the mask and forgets the failures. */
    method MaybeClearBreakerOverride(key: string, now: real)
      requires Valid()
      modifies this, circuit
      ensures Valid() && View() == Recover(old(View()), key, now, recoverySeconds)
      ensures circuit.history == if Recovers(old(View()), key, now, recoverySeconds) then old(circuit.history) - {key} else old(circuit.history)
    {
      StepKeeps(View(), Recovering(key, now), recoverySeconds);
      hide UniqueKeys, ActiveIn, EntriesOk;
      if key !in overrides || overrides[key] != Maintenance {
        return;
      }
      if key !in tripTimes {
        return;
      }
      if now - tripTimes[key] < recoverySeconds {
        return;
      }
      overrides := overrides - {key};
      tripTimes := tripTimes - {key};
      tripTimesMs := tripTimesMs - {key};
      circuit.RecordSuccess(key);
    }

    /** `_effective_turn_state`: recovery first, then the admission-aware state. */
    method EffectiveTurnState(turn: Turn, now: real) returns (state: RouteState)
      requires Valid()
      modifies this, circuit
      ensures Valid() && View() == Recover(old(View()), turn.route.key, now, recoverySeconds)
      ensures state == EffectiveState(View(), turn)
    {
      MaybeClearBreakerOverride(turn.route.key, now);
      state := if turn.route.key in overrides then overrides[turn.route.key] else turn.route.state;
      if turn.admittedState == Some(Maintenance) && state != Maintenance {
        var current := FindRoute(config, turn.route.key);
        var clearedByReload :=
          turn.admittedGeneration.Some?
          && (if turn.route.key in reloadCleared then reloadCleared[turn.route.key] else -1) > turn.admittedGeneration.value;
        if current.None? || current.value.state != Active || clearedByReload {
          state := Maintenance;
        }
      }
    }
  }
}
