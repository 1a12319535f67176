/** When a route is masked: what a trip, a recovery and a reload do to the fields, and what the history of a run says. */
module BreakerMasks {
  import opened Breaker
  import opened Options

  /** The configuration lists the key as ACTIVE. */
  predicate ListsActive(config: seq<Route>, key: string) {
    exists r :: r in config && r.key == key && r.state == Active
  }

  lemma ListsActiveIsActiveIn(config: seq<Route>, key: string)
    requires UniqueKeys(config)
    ensures ListsActive(config, key) <==> ActiveIn(config, key)
  {
    FindRouteFacts(config, key);
  }

  /** The two states differ in the mask of one key at most. */
  ghost predicate OnlyMaskOf(s: State, s': State, key: string) {
    && s'.config == s.config && s'.generation == s.generation
    && s'.cleared == s.cleared && s'.tombstones == s.tombstones
    && s'.overrides - {key} == s.overrides - {key}
    && s'.tripTimes - {key} == s.tripTimes - {key} && s'.tripTimesMs - {key} == s.tripTimesMs - {key}
  }

  ghost predicate Masked(s: State, key: string, mono: real, ms: int) {
    && key in s.overrides && s.overrides[key] == Maintenance
    && key in s.tripTimes && s.tripTimes[key] == mono && key in s.tripTimesMs && s.tripTimesMs[key] == ms
  }

  ghost predicate Unmasked(s: State, key: string) {
    key !in s.overrides && key !in s.tripTimes && key !in s.tripTimesMs
  }

  /** A trip puts a route that is ACTIVE now into maintenance, and does nothing to any other. */
  lemma TripMasks(s: State, key: string, mono: real, ms: int, recovery: real)
    requires Inv(s)
    ensures var s' := Step(s, Tripped(key, mono, ms), recovery);
      && OnlyMaskOf(s, s', key)
      && (if ListsActive(s.config, key) then Masked(s', key, mono, ms) else s' == s)
  {
    ListsActiveIsActiveIn(s.config, key);
  }

  /** A recovery check lifts the mask of its key exactly if the recovery time has passed since the trip. */
  lemma RecoveryLifts(s: State, key: string, now: real, recovery: real)
    requires Inv(s)
    ensures var s' := Step(s, Recovering(key, now), recovery);
      && OnlyMaskOf(s, s', key)
      && (if key in s.overrides && s.tripTimes[key] + recovery <= now then Unmasked(s', key) else s' == s)
  {
  }

  /** The candidate gives no known key another profile than it ever had. */
  ghost predicate KeepsProfiles(s: State, candidate: seq<Route>) {
    forall r :: r in candidate && r.key in s.tombstones ==> s.tombstones[r.key] == r.profile
  }

  /** A reload swaps the configuration and leaves exactly the masks of routes that are still ACTIVE; one that moves a key
      to another profile does nothing. */
  lemma ReloadSwaps(s: State, candidate: seq<Route>, recovery: real)
    requires Inv(s) && UniqueKeys(candidate)
    ensures var s' := Step(s, Reloaded(candidate), recovery);
      if !KeepsProfiles(s, candidate) then s' == s
      else
        && s'.config == candidate && s'.generation == s.generation + 1
        && (forall k :: k in s'.overrides <==> k in s.overrides && ListsActive(candidate, k))
        && (forall k :: k in s'.overrides ==>
              s'.overrides[k] == s.overrides[k] && s'.tripTimes[k] == s.tripTimes[k] && s'.tripTimesMs[k] == s.tripTimesMs[k])
  {
    forall k ensures ListsActive(candidate, k) <==> ActiveIn(candidate, k) {
      ListsActiveIsActiveIn(candidate, k);
    }
    StepKeeps(s, Reloaded(candidate), recovery);
    hide UniqueKeys, ActiveIn, ListsActive, Profiles;
  }

  /** It records every mask that it lifts under its own generation, and the profile of every key that it lists. */
  lemma ReloadRecords(s: State, candidate: seq<Route>, recovery: real)
    requires Inv(s) && UniqueKeys(candidate) && KeepsProfiles(s, candidate)
    ensures var s' := Step(s, Reloaded(candidate), recovery);
      && (forall k :: k in s'.cleared <==> k in s.cleared || (k in s.overrides && !ListsActive(candidate, k)))
      && (forall k :: k in s'.cleared ==>
            s'.cleared[k] == if k in s.overrides && !ListsActive(candidate, k) then s.generation + 1 else s.cleared[k])
      && (forall r :: r in candidate ==> r.key in s'.tombstones && s'.tombstones[r.key] == r.profile)
      && (forall k :: k in s.tombstones ==> k in s'.tombstones && s'.tombstones[k] == s.tombstones[k])
      && (forall k :: k in s'.tombstones ==> k in s.tombstones || exists r :: r in candidate && r.key == k)
  {
    ProfilesFacts(candidate);
    forall k ensures ListsActive(candidate, k) <==> ActiveIn(candidate, k) {
      ListsActiveIsActiveIn(candidate, k);
    }
    hide UniqueKeys, ActiveIn, ListsActive, Profiles;
  }

  // ---------------------------------------------------------------------------------------------
  // Over a run
  // ---------------------------------------------------------------------------------------------

  /** Event `i` is a trip of `k` that found the route ACTIVE. */
  ghost predicate TripsAt(config: seq<Route>, es: seq<Event>, recovery: real, i: nat, k: string)
    requires i < |es|
  {
    es[i].Tripped? && es[i].key == k && ListsActive(StateAt(config, es, recovery, i).config, k)
  }

  /** Event `j` ends a mask that was put on at `mono`: a recovery check that comes late enough, or an accepted reload
      that does not have the route ACTIVE. */
  ghost predicate EndsMaskAt(config: seq<Route>, es: seq<Event>, recovery: real, j: nat, k: string, mono: real)
    requires j < |es|
  {
    match es[j]
    case Tripped(_, _, _) => false
    case Recovering(key, now) => key == k && mono + recovery <= now
    case Reloaded(candidate) =>
      !ListsActive(candidate, k) && KeepsProfiles(StateAt(config, es, recovery, j), candidate)
  }

  /** The trip at `i` is the last one before `n` that masked `k`, and nothing has ended that mask since. */
  ghost predicate MaskedSince(config: seq<Route>, es: seq<Event>, recovery: real, i: nat, n: nat, k: string)
    requires i < n <= |es|
  {
    && TripsAt(config, es, recovery, i, k)
    && forall j: nat :: i < j < n ==>
         !TripsAt(config, es, recovery, j, k) && !EndsMaskAt(config, es, recovery, j, k, es[i].mono)
  }

  ghost predicate MaskedByHistory(config: seq<Route>, es: seq<Event>, recovery: real, n: nat, k: string)
    requires n <= |es|
  {
    exists i: nat :: i < n && MaskedSince(config, es, recovery, i, n, k)
  }

  lemma MaskStep(s: State, e: Event, recovery: real, k: string)
    requires Inv(s) && (e.Reloaded? ==> UniqueKeys(e.candidate))
    ensures var s' := Step(s, e, recovery);
      match e
      case Tripped(key, mono, ms) =>
        if key == k && ListsActive(s.config, k) then Masked(s', k, mono, ms) else SameMask(s, s', k)
      case Recovering(key, now) =>
        if key == k && k in s.overrides && s.tripTimes[k] + recovery <= now then k !in s'.overrides else SameMask(s, s', k)
      case Reloaded(candidate) =>
        if !ListsActive(candidate, k) && KeepsProfiles(s, candidate) then k !in s'.overrides else SameMask(s, s', k)
  {
    match e
    case Tripped(key, mono, ms) =>
      TripMasks(s, key, mono, ms, recovery);
      if key != k {
        OtherMasks(s, Step(s, e, recovery), key, k);
      }
    case Recovering(key, now) =>
      RecoveryLifts(s, key, now, recovery);
      if key != k {
        OtherMasks(s, Step(s, e, recovery), key, k);
      }
    case Reloaded(candidate) =>
      ReloadSwaps(s, candidate, recovery);
      StepKeeps(s, e, recovery);
  }

  ghost predicate SameMask(s: State, s': State, k: string) {
    && (k in s'.overrides <==> k in s.overrides)
    && (k in s.overrides ==> k in s.tripTimes && k in s'.tripTimes && s'.tripTimes[k] == s.tripTimes[k]
                             && k in s.tripTimesMs && k in s'.tripTimesMs && s'.tripTimesMs[k] == s.tripTimesMs[k])
  }

  lemma OtherMasks(s: State, s': State, key: string, k: string)
    requires Inv(s) && OnlyMaskOf(s, s', key) && k != key
    ensures SameMask(s, s', k)
  {
    assert k in s.overrides - {key} <==> k in s.overrides;
    assert k in s'.overrides - {key} <==> k in s'.overrides;
    assert k in s.overrides ==> (s.tripTimes - {key})[k] == s.tripTimes[k] && (s.tripTimesMs - {key})[k] == s.tripTimesMs[k];
    assert k in s.overrides ==> k in s'.tripTimes - {key} && k in s'.tripTimesMs - {key};
  }

  /** One more event: a mask goes on, stays with its trip time, or ends. */
  lemma HistoryStep(config: seq<Route>, es: seq<Event>, recovery: real, n: nat, i: nat, k: string)
    requires i < n < |es| && MaskedSince(config, es, recovery, i, n, k)
    ensures MaskedSince(config, es, recovery, i, n + 1, k) <==>
            !TripsAt(config, es, recovery, n, k) && !EndsMaskAt(config, es, recovery, n, k, es[i].mono)
  {
    hide TripsAt, EndsMaskAt;
  }

  lemma HistoryBack(config: seq<Route>, es: seq<Event>, recovery: real, n: nat, i: nat, k: string)
    requires i < n < |es| && MaskedSince(config, es, recovery, i, n + 1, k)
    ensures MaskedSince(config, es, recovery, i, n, k)
    ensures !TripsAt(config, es, recovery, n, k) && !EndsMaskAt(config, es, recovery, n, k, es[i].mono)
  {
    hide TripsAt, EndsMaskAt;
  }

  /** What the fields say and what the history says about the mask of `k`. */
  ghost predicate Agrees(config: seq<Route>, es: seq<Event>, recovery: real, n: nat, k: string)
    requires n <= |es|
  {
    var s := StateAt(config, es, recovery, n);
    && (k in s.overrides <==> MaskedByHistory(config, es, recovery, n, k))
    && forall i: nat :: i < n && MaskedSince(config, es, recovery, i, n, k) ==> Masked(s, k, es[i].mono, es[i].ms)
  }

  lemma AgreesAfterTrip(config: seq<Route>, es: seq<Event>, recovery: real, n: nat, k: string)
    requires n < |es| && TripsAt(config, es, recovery, n, k)
    requires Masked(StateAt(config, es, recovery, n + 1), k, es[n].mono, es[n].ms)
    ensures Agrees(config, es, recovery, n + 1, k)
  {
    hide StateAt, TripsAt, EndsMaskAt;
    var m := n + 1;
    assert MaskedSince(config, es, recovery, n, m, k);
    forall i: nat | i < n ensures !MaskedSince(config, es, recovery, i, m, k) {
    }
  }

  lemma AgreesAfterOther(config: seq<Route>, es: seq<Event>, recovery: real, n: nat, k: string)
    requires n < |es| && Agrees(config, es, recovery, n, k) && !TripsAt(config, es, recovery, n, k)
    requires var s, s' := StateAt(config, es, recovery, n), StateAt(config, es, recovery, n + 1);
      && Inv(s) && Inv(s')
      && (k in s.overrides && EndsMaskAt(config, es, recovery, n, k, s.tripTimes[k]) ==> k !in s'.overrides)
      && (k !in s.overrides || !EndsMaskAt(config, es, recovery, n, k, s.tripTimes[k]) ==> SameMask(s, s', k))
    ensures Agrees(config, es, recovery, n + 1, k)
  {
    hide StateAt, TripsAt, EndsMaskAt;
    var s, s' := StateAt(config, es, recovery, n), StateAt(config, es, recovery, n + 1);
    forall i: nat | i < n && MaskedSince(config, es, recovery, i, n, k)
      ensures MaskedSince(config, es, recovery, i, n + 1, k) <==> k in s'.overrides
    {
      HistoryStep(config, es, recovery, n, i, k);
    }
    forall i: nat | i < n + 1 && MaskedSince(config, es, recovery, i, n + 1, k)
      ensures i < n && MaskedSince(config, es, recovery, i, n, k)
    {
      if i < n {
        HistoryBack(config, es, recovery, n, i, k);
      }
    }
    if k in s'.overrides {
      assert k in s.overrides;
      var i: nat :| i < n && MaskedSince(config, es, recovery, i, n, k);
      assert MaskedSince(config, es, recovery, i, n + 1, k);
    }
  }

  /** A key is masked exactly if a trip found its route ACTIVE and since the last such trip no recovery check came late
      enough after it and no reload took the route out of the ACTIVE ones; and the trip times are those of that trip. */
  lemma {:induction false} MaskIsHistory(config: seq<Route>, es: seq<Event>, recovery: real, n: nat, k: string)
    requires UniqueKeys(config) && ValidRun(es) && n <= |es|
    ensures var s := StateAt(config, es, recovery, n);
      && (k in s.overrides <==> MaskedByHistory(config, es, recovery, n, k))
      && forall i: nat :: i < n && MaskedSince(config, es, recovery, i, n, k) ==> Masked(s, k, es[i].mono, es[i].ms)
  {
    if n > 0 {
      var m := n - 1;
      MaskIsHistory(config, es, recovery, m, k);
      RunKeeps(config, es, recovery, m);
      RunKeeps(config, es, recovery, n);
      assert es[m] in es;
      MaskStep(StateAt(config, es, recovery, m), es[m], recovery, k);
      assert Agrees(config, es, recovery, m, k);
      hide MaskedSince, Inv;
      if TripsAt(config, es, recovery, m, k) {
        AgreesAfterTrip(config, es, recovery, m, k);
      } else {
        AgreesAfterOther(config, es, recovery, m, k);
      }
    }
  }
}
