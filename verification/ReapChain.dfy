/** What one reap pass may force and how it is followed up, and how long a chain of passes gets. */
module ReapChain {
  import opened Options

  type Key = string

  const REAP_MAX_FOLLOWUP_ATTEMPTS: nat := 3

  /** A turn task that the pass waited for: the route key it shows, if any, and whether it finished. */
  datatype Task = Task(key: Option<Key>, done: bool)

  datatype FollowUp = FollowUp(extra: set<Key>, attempt: nat, eligible: set<Key>)

  /** The keys given to a pass, what it waited for and drained, what stays un-drained and was forced, the scope of
      eviction and retirement, and the next pass. */
  datatype Outcome = Outcome(
    extra: set<Key>,
    drainKeys: set<Key>,
    drained: set<Key>,
    leftover: set<Key>,
    forced: set<Key>,
    scope: set<Key>,
    next: Option<FollowUp>)

  // ---------------------------------------------------------------------------------------------
  // One pass
  // ---------------------------------------------------------------------------------------------

  function Keys(tasks: seq<Task>): set<Key> {
    set t | t in tasks && !t.done && t.key.Some? :: t.key.value
  }

  /** A task without a key contests every key. */
  function ContestedBy(tasks: seq<Task>, drainKeys: set<Key>): set<Key> {
    Keys(tasks) + if exists t :: t in tasks && !t.done && t.key.None? then drainKeys else {}
  }

  method CollectContested(relevant: seq<Task>, drainKeys: set<Key>) returns (contested: set<Key>)
    ensures contested == ContestedBy(relevant, drainKeys)
  {
    contested := {};
    assert ContestedBy([], drainKeys) == {};
    for i := 0 to |relevant|
      invariant contested == ContestedBy(relevant[..i], drainKeys)
    {
      var task := relevant[i];
      if task.done {
        continue;
      }
      if task.key.None? {
        contested := contested + drainKeys;
      } else {
        contested := contested + {task.key.value};
      }
    }
    assert relevant[..|relevant|] == relevant;
  }

  /** Takes and gives back the lock of each uncontested key in turn: `acquired` are the locks that come free in time. */
  method DrainLocks(drainKeys: seq<Key>, contested: set<Key>, acquired: set<Key>) returns (drained: set<Key>)
    ensures drained == (set k | k in drainKeys && k !in contested && k in acquired)
  {
    drained := {};
    for i := 0 to |drainKeys|
      invariant drained == set k | k in drainKeys[..i] && k !in contested && k in acquired
    {
      assert drainKeys[..i + 1] == drainKeys[..i] + [drainKeys[i]];
      if drainKeys[i] in contested || drainKeys[i] !in acquired {
        continue;
      }
      drained := drained + {drainKeys[i]};
    }
    assert drainKeys[..|drainKeys|] == drainKeys;
  }

  function PassOf(extra: set<Key>, attempt: nat, eligible: Option<set<Key>>, drainKeys: set<Key>, drained: set<Key>,
                  live: set<Key>, tombstones: set<Key>, closing: bool): Outcome {
    var leftoverPolicy := extra * live - drained;
    var leftover := leftoverPolicy + (tombstones - live - drained);
    var carried := if eligible.Some? then eligible.value else {};
    var forceKeys := leftover * drainKeys * carried;
    var force := forceKeys != {} && attempt >= REAP_MAX_FOLLOWUP_ATTEMPTS && !closing;
    Outcome(extra, drainKeys, drained, leftover, if force then forceKeys else {},
            if force then drained + forceKeys else drained,
            if leftover != {} && !force && !closing then Some(FollowUp(leftoverPolicy, attempt + 1, leftover)) else None)
  }

  // ---------------------------------------------------------------------------------------------
  // Chains of passes
  // ---------------------------------------------------------------------------------------------

  /** What a pass of a chain meets: the live and tombstoned keys when it starts and when it ends, and the keys that
      come free while it waits. */
  datatype Round = Round(live0: set<Key>, tombstones0: set<Key>, live: set<Key>, tombstones: set<Key>, free: set<Key>)

  function PassIn(r: Round, extra: set<Key>, attempt: nat, eligible: Option<set<Key>>): Outcome {
    var drainKeys := r.tombstones0 - r.live0 + extra;
    PassOf(extra, attempt, eligible, drainKeys, drainKeys * r.free, r.live, r.tombstones, false)
  }

  /** The passes of a chain, as far as `rounds` go. */
  function Chain(rounds: seq<Round>, extra: set<Key>, attempt: nat, eligible: Option<set<Key>>): seq<Outcome>
    decreases |rounds|
  {
    if rounds == [] then []
    else
      var o := PassIn(rounds[0], extra, attempt, eligible);
      match o.next
      case None => [o]
      case Some(f) => [o] + Chain(rounds[1..], f.extra, f.attempt, Some(f.eligible))
  }

  /** An unforced pass acts on nothing but what it drained. A pass forces, from the last attempt on, only keys that it
      waited for in vain and that the pass before it left, whether or not that one waited for them. */
  lemma {:induction false} ForcedWereLeftBefore(rounds: seq<Round>, extra: set<Key>, attempt: nat, eligible: Option<set<Key>>,
                                                i: nat)
    requires i < |Chain(rounds, extra, attempt, eligible)|
    ensures var c := Chain(rounds, extra, attempt, eligible);
      && c[i].scope == c[i].drained + c[i].forced
      && c[i].forced <= c[i].drainKeys - c[i].drained
      && c[i].forced <= (if i > 0 then c[i - 1].leftover else if eligible.Some? then eligible.value else {})
      && (i > 0 ==> c[i - 1].leftover !! c[i - 1].drained)
      && (c[i].forced != {} ==> attempt + i >= REAP_MAX_FOLLOWUP_ATTEMPTS)
    decreases |rounds|
  {
    var o := PassIn(rounds[0], extra, attempt, eligible);
    if i > 0 {
      var f := o.next.value;
      ForcedWereLeftBefore(rounds[1..], f.extra, f.attempt, Some(f.eligible), i - 1);
      assert f.eligible == o.leftover && f.attempt == attempt + 1;
      hide PassIn;
      assert Chain(rounds, extra, attempt, eligible) == [o] + Chain(rounds[1..], f.extra, f.attempt, Some(f.eligible));
    }
  }

  // ---------------------------------------------------------------------------------------------
  // What a pass leaves and hands on
  // ---------------------------------------------------------------------------------------------

  predicate Retired(key: Key, live: set<Key>, tombstones: set<Key>) { key in tombstones && key !in live }

  /** One pass, with what it was given and what it found: what stays un-drained, what is forced, what it may evict, and
      what its follow-up gets. */
  lemma PassExactly(extra: set<Key>, attempt: nat, eligible: Option<set<Key>>, drainKeys: set<Key>, drained: set<Key>,
                    live: set<Key>, tombstones: set<Key>, closing: bool, key: Key)
    ensures var o := PassOf(extra, attempt, eligible, drainKeys, drained, live, tombstones, closing);
      && (key in o.leftover <==> key !in drained && (Retired(key, live, tombstones) || (key in extra && key in live)))
      && (key in o.forced <==>
            && key in o.leftover && key in drainKeys && eligible.Some? && key in eligible.value
            && attempt >= REAP_MAX_FOLLOWUP_ATTEMPTS && !closing)
      && (key in o.scope <==> key in drained || key in o.forced)
      && (o.next.Some? <==> o.leftover != {} && o.forced == {} && !closing)
      && (o.next.Some? ==>
            && o.next.value.attempt == attempt + 1
            && (key in o.next.value.extra <==> key in extra && key in live && key !in drained)
            && (key in o.next.value.eligible <==> key in o.leftover))
      && o.extra == extra && o.drainKeys == drainKeys && o.drained == drained
  {
  }

  /** The same for the `i`-th pass of a chain: it forgets no key, its follow-up gets exactly what it left, and the next
      pass of the chain is that follow-up. */
  lemma {:induction false} ChainForgetsNothing(rounds: seq<Round>, extra: set<Key>, attempt: nat, eligible: Option<set<Key>>,
                                               i: nat, key: Key)
    requires i < |Chain(rounds, extra, attempt, eligible)|
    ensures |Chain(rounds, extra, attempt, eligible)| <= |rounds|
    ensures var c, r := Chain(rounds, extra, attempt, eligible), rounds[i];
      && (key in c[i].drained <==> (Retired(key, r.live0, r.tombstones0) || key in c[i].extra) && key in r.free)
      && (key in c[i].leftover <==>
            key !in c[i].drained && (Retired(key, r.live, r.tombstones) || (key in c[i].extra && key in r.live)))
      && (c[i].next.Some? <==> c[i].leftover != {} && c[i].forced == {})
      && (c[i].next.Some? ==>
            && c[i].next.value.attempt == attempt + i + 1
            && (key in c[i].next.value.extra <==> key in c[i].extra && key in r.live && key !in c[i].drained)
            && c[i].next.value.eligible == c[i].leftover)
      && (i + 1 < |c| <==> c[i].next.Some? && i + 1 < |rounds|)
      && (if i == 0 then c[i].extra == extra else c[i - 1].next.Some? && c[i].extra == c[i - 1].next.value.extra)
    decreases |rounds|
  {
    var o := PassIn(rounds[0], extra, attempt, eligible);
    var c := Chain(rounds, extra, attempt, eligible);
    if o.next.Some? {
      var f := o.next.value;
      var tail := Chain(rounds[1..], f.extra, f.attempt, Some(f.eligible));
      assert c == [o] + tail && f.attempt == attempt + 1;
      if i > 0 {
        hide PassIn;
        ChainForgetsNothing(rounds[1..], f.extra, f.attempt, Some(f.eligible), i - 1, key);
      } else if tail != [] {
        hide PassIn;
        ChainForgetsNothing(rounds[1..], f.extra, f.attempt, Some(f.eligible), 0, key);
      }
    }
  }

  // ---------------------------------------------------------------------------------------------
  // Did the pass before wait for what is forced?
  // ---------------------------------------------------------------------------------------------

  /** What the `i`-th pass of a chain waits for is settled when it begins: the retired keys and those it was given. */
  lemma {:induction false} WaitsForRetired(rounds: seq<Round>, extra: set<Key>, attempt: nat, eligible: Option<set<Key>>,
                                           i: nat, key: Key)
    requires i < |Chain(rounds, extra, attempt, eligible)|
    ensures i < |rounds|
    ensures var c := Chain(rounds, extra, attempt, eligible);
      && (key in c[i].drainKeys <==> Retired(key, rounds[i].live0, rounds[i].tombstones0) || key in c[i].extra)
      && (key in c[i].leftover ==>
            Retired(key, rounds[i].live, rounds[i].tombstones) || (key in c[i].extra && key in rounds[i].live))
    decreases |rounds|
  {
    var o := PassIn(rounds[0], extra, attempt, eligible);
    if i > 0 {
      var f := o.next.value;
      WaitsForRetired(rounds[1..], f.extra, f.attempt, Some(f.eligible), i - 1, key);
      hide PassIn;
      assert Chain(rounds, extra, attempt, eligible) == [o] + Chain(rounds[1..], f.extra, f.attempt, Some(f.eligible));
    }
  }

  /** The exact condition: the pass before waited for a forced key, in vain, if and only if the key was retired when
      that pass began or was given to it. Otherwise a reload retired the key while that pass was under way, and the
      turns on it get a single wait before it is forced. */
  lemma ForcedWasWaitedForBefore(rounds: seq<Round>, extra: set<Key>, attempt: nat, eligible: Option<set<Key>>,
                                 i: nat, key: Key)
    requires 0 < i < |Chain(rounds, extra, attempt, eligible)| && i <= |rounds|
    requires key in Chain(rounds, extra, attempt, eligible)[i].forced
    ensures var before, r := Chain(rounds, extra, attempt, eligible)[i - 1], rounds[i - 1];
      && (key in before.drainKeys - before.drained <==>
            Retired(key, r.live0, r.tombstones0) || key in before.extra)
      && (key !in before.drainKeys ==>
            !Retired(key, r.live0, r.tombstones0) && Retired(key, r.live, r.tombstones))
  {
    ForcedWereLeftBefore(rounds, extra, attempt, eligible, i);
    WaitsForRetired(rounds, extra, attempt, eligible, i - 1, key);
  }

  /** What one pass ends with the next one starts with. */
  ghost predicate Continuous(rounds: seq<Round>) {
    forall i :: 0 < i < |rounds| ==>
      rounds[i].live0 == rounds[i - 1].live && rounds[i].tombstones0 == rounds[i - 1].tombstones
  }

  lemma EarlyPass(r: Round, attempt: nat, eligible: Option<set<Key>>)
    requires attempt < REAP_MAX_FOLLOWUP_ATTEMPTS
    ensures var o := PassIn(r, {}, attempt, eligible);
      o.leftover == r.tombstones - r.live - (r.tombstones0 - r.live0) * r.free
      && (o.leftover != {} ==> o.next == Some(FollowUp({}, attempt + 1, o.leftover)))
  {
    var o := PassIn(r, {}, attempt, eligible);
    assert o.drained == (r.tombstones0 - r.live0) * r.free;
    assert {} * r.live - o.drained == {};
  }

  /** The second case happens: while the chain that waits for `x` is in its third pass, a reload retires `k`; the fourth
      pass, the first one to wait for `k`, forces it. */
  lemma ForcedAfterOneWait(k: Key, x: Key) returns (rounds: seq<Round>)
    requires k != x
    ensures Continuous(rounds)
    ensures var c := Chain(rounds, {}, 0, None);
      && |c| == 4 && k in c[3].forced
      && k !in c[0].drainKeys && k !in c[1].drainKeys && k !in c[2].drainKeys
  {
    var a := Round({k}, {k, x}, {k}, {k, x}, {});
    var b := Round({k}, {k, x}, {}, {k, x}, {});
    var d := Round({}, {k, x}, {}, {k, x}, {});
    rounds := [a, a, b, d];
    assert rounds[1..] == [a, b, d] && rounds[1..][1..] == [b, d] && rounds[1..][1..][1..] == [d];
    var o0, o1 := PassIn(a, {}, 0, None), PassIn(a, {}, 1, Some({x}));
    var o2, o3 := PassIn(b, {}, 2, Some({x})), PassIn(d, {}, 3, Some({k, x}));
    EarlyPass(a, 0, None);
    EarlyPass(a, 1, Some({x}));
    EarlyPass(b, 2, Some({x}));
    assert o0.leftover == {x} && o1.leftover == {x} && o2.leftover == {k, x};
    assert k in o3.leftover * o3.drainKeys * {k, x};
    assert k in o3.forced && o3.next == None;
    hide PassIn;
    assert Chain([d], {}, 3, Some({k, x})) == [o3];
    assert Chain([b, d], {}, 2, Some({x})) == [o2] + [o3];
    assert Chain([a, b, d], {}, 1, Some({x})) == [o1] + ([o2] + [o3]);
    assert Chain(rounds, {}, 0, None) == [o0] + ([o1] + ([o2] + [o3]));
  }

  // ---------------------------------------------------------------------------------------------
  // The length of a chain
  // ---------------------------------------------------------------------------------------------

  /** No reload while the chain runs. */
  ghost predicate Quiet(rounds: seq<Round>, live: set<Key>, tombstones: set<Key>) {
    forall r :: r in rounds ==> r.live0 == r.live == live && r.tombstones0 == r.tombstones == tombstones
  }

  /** A retired key that came free once comes free again: no new turn gets onto a retired route. Live routes may be as
      busy as they like. */
  ghost predicate StaysFree(rounds: seq<Round>, retired: set<Key>) {
    forall i, j :: 0 <= i < j < |rounds| ==> rounds[i].free * retired <= rounds[j].free
  }

  /** What a pass leaves, the passes before it left too. */
  ghost predicate Shrinking(c: seq<Outcome>) {
    forall i :: 0 < i < |c| ==> c[i].leftover <= c[i - 1].leftover
  }

  lemma {:induction false} QuietChainShrinks(rounds: seq<Round>, extra: set<Key>, attempt: nat, eligible: Option<set<Key>>,
                                             live: set<Key>, tombstones: set<Key>)
    requires Quiet(rounds, live, tombstones) && StaysFree(rounds, tombstones - live)
    ensures Shrinking(Chain(rounds, extra, attempt, eligible))
    decreases |rounds|
  {
    if rounds != [] {
      var o := PassIn(rounds[0], extra, attempt, eligible);
      if o.next.Some? {
        var f := o.next.value;
        var tail := Chain(rounds[1..], f.extra, f.attempt, Some(f.eligible));
        QuietChainShrinks(rounds[1..], f.extra, f.attempt, Some(f.eligible), live, tombstones);
        if |rounds| > 1 {
          assert rounds[0].free * (tombstones - live) <= rounds[1].free;
          assert tail[0] == PassIn(rounds[1], f.extra, f.attempt, Some(f.eligible));
        }
        hide PassIn, Shrinking;
      }
    }
  }

  /** A chain ends: with no reload and shrinking leftovers, a chain that is `n` attempts away from the limit has at
      most `n` + 1 passes, and its last pass drained or forced every key it was left with. */
  lemma {:induction false} ChainEnds(rounds: seq<Round>, extra: set<Key>, attempt: nat, eligible: Option<set<Key>>,
                                     live: set<Key>, tombstones: set<Key>)
    requires attempt <= REAP_MAX_FOLLOWUP_ATTEMPTS && |rounds| > REAP_MAX_FOLLOWUP_ATTEMPTS - attempt
    requires Quiet(rounds, live, tombstones) && Shrinking(Chain(rounds, extra, attempt, eligible))
    requires attempt > 0 ==> eligible.Some? && Chain(rounds, extra, attempt, eligible)[0].leftover <= eligible.value
    ensures var c := Chain(rounds, extra, attempt, eligible);
      && 0 < |c| <= REAP_MAX_FOLLOWUP_ATTEMPTS - attempt + 1
      && c[|c| - 1].next.None? && c[|c| - 1].leftover == c[|c| - 1].forced
    decreases |rounds|
  {
    var o := PassIn(rounds[0], extra, attempt, eligible);
    assert rounds[0] in rounds;
    if attempt < REAP_MAX_FOLLOWUP_ATTEMPTS && o.next.Some? {
      var f := o.next.value;
      var tail := Chain(rounds[1..], f.extra, f.attempt, Some(f.eligible));
      var c := Chain(rounds, extra, attempt, eligible);
      assert c == [o] + tail;
      assert tail != [];
      assert c[1] == tail[0] && c[1].leftover <= c[0].leftover;
      assert f.eligible == o.leftover && f.attempt == attempt + 1;
      hide PassIn;
      ShrinkingTail(o, tail);
      ChainEnds(rounds[1..], f.extra, f.attempt, Some(f.eligible), live, tombstones);
    }
  }

  lemma ShrinkingTail(o: Outcome, tail: seq<Outcome>)
    requires Shrinking([o] + tail)
    ensures Shrinking(tail)
  {
    forall i | 0 < i < |tail| ensures tail[i].leftover <= tail[i - 1].leftover {
      assert ([o] + tail)[i + 1] == tail[i] && ([o] + tail)[i] == tail[i - 1];
    }
  }

  /** Some pass drained the key, or forced it. */
  ghost predicate Served(c: seq<Outcome>, key: Key) {
    exists i :: 0 <= i < |c| && (key in c[i].drained || key in c[i].forced)
  }

  lemma ServedLater(o: Outcome, tail: seq<Outcome>, key: Key)
    requires Served(tail, key)
    ensures Served([o] + tail, key)
  {
    var i :| 0 <= i < |tail| && (key in tail[i].drained || key in tail[i].forced);
    assert ([o] + tail)[i + 1] == tail[i];
  }

  /** With no reload, a chain that ends with nothing but what it forces has served every retired key and every live key
      that it was given. */
  lemma {:induction false} EndedChainServed(rounds: seq<Round>, extra: set<Key>, attempt: nat, eligible: Option<set<Key>>,
                                            live: set<Key>, tombstones: set<Key>, key: Key)
    requires rounds != [] && Quiet(rounds, live, tombstones)
    requires var c := Chain(rounds, extra, attempt, eligible);
      c != [] && c[|c| - 1].next.None? && c[|c| - 1].leftover == c[|c| - 1].forced
    requires Retired(key, live, tombstones) || (key in extra && key in live)
    ensures Served(Chain(rounds, extra, attempt, eligible), key)
    decreases |rounds|
  {
    var o := PassIn(rounds[0], extra, attempt, eligible);
    var c := Chain(rounds, extra, attempt, eligible);
    assert rounds[0] in rounds;
    assert c[0] == o;
    ChainForgetsNothing(rounds, extra, attempt, eligible, 0, key);
    hide PassIn;
    if o.next.Some? && key !in o.drained {
      var f := o.next.value;
      var tail := Chain(rounds[1..], f.extra, f.attempt, Some(f.eligible));
      assert c == [o] + tail;
      assert |rounds| > 1 && tail != [];
      EndedChainServed(rounds[1..], f.extra, f.attempt, Some(f.eligible), live, tombstones, key);
      ServedLater(o, tail, key);
    }
  }

  /** The chain that a reload starts has at most REAP_MAX_FOLLOWUP_ATTEMPTS + 1 passes if no further reload comes and no
      new turn gets onto a retired route, it leaves nothing that it did not force, and some pass of it drained or forced
      every retired key and every live key that it was given. */
  lemma ReloadChainEnds(rounds: seq<Round>, extra: set<Key>, live: set<Key>, tombstones: set<Key>)
    requires |rounds| > REAP_MAX_FOLLOWUP_ATTEMPTS
    requires Quiet(rounds, live, tombstones) && StaysFree(rounds, tombstones - live)
    ensures var c := Chain(rounds, extra, 0, None);
      && 0 < |c| <= REAP_MAX_FOLLOWUP_ATTEMPTS + 1
      && c[|c| - 1].next.None? && c[|c| - 1].leftover == c[|c| - 1].forced
      && forall key :: key in tombstones - live + extra * live ==> Served(c, key)
  {
    QuietChainShrinks(rounds, extra, 0, None, live, tombstones);
    ChainEnds(rounds, extra, 0, None, live, tombstones);
    hide Chain, Served;
    forall key | key in tombstones - live + extra * live ensures Served(Chain(rounds, extra, 0, None), key) {
      EndedChainServed(rounds, extra, 0, None, live, tombstones, key);
    }
  }

  // ---------------------------------------------------------------------------------------------
  // The same, from the turns in flight
  // ---------------------------------------------------------------------------------------------

  /** The turns in flight when the wait of a pass is over, with the route key that each shows, if it shows one yet. */
  type Flight = map<nat, Option<Key>>

  predicate Concerns(key: Option<Key>, watched: set<Key>) { key.None? || key.value in watched }

  /** From one pass to the next, turns that can touch a watched key only finish or show their key. */
  ghost predicate NoNewcomers(before: Flight, after: Flight, watched: set<Key>) {
    forall t :: t in after && Concerns(after[t], watched) ==>
      t in before && (before[t].Some? ==> after[t] == before[t])
  }

  predicate AnyUnresolved(flight: Flight) { exists t :: t in flight && flight[t].None? }

  predicate AnyConcerned(flight: Flight, watched: set<Key>) { exists t :: t in flight && Concerns(flight[t], watched) }

  /** The keys that no turn contests; when the wait ran into its deadline, `late`, nothing is drained any more. */
  function FreeKeys(flight: Flight, watched: set<Key>, late: bool): set<Key> {
    if AnyUnresolved(flight) || (late && AnyConcerned(flight, watched)) then {}
    else set k | k in watched && forall t :: t in flight ==> flight[t] != Some(k)
  }

  /** A watched key comes free exactly if every turn shows a key and none shows this one, and, after a late end of the
      wait, none is on any watched key. */
  lemma FreeKeysExactly(flight: Flight, watched: set<Key>, late: bool, key: Key)
    ensures key in FreeKeys(flight, watched, late) <==>
            && key in watched
            && (forall t :: t in flight ==> flight[t].Some? && flight[t].value != key)
            && (late ==> forall t :: t in flight ==> flight[t].value !in watched)
  {
  }

  lemma FreeKeysGrow(before: Flight, after: Flight, watched: set<Key>, late: bool)
    requires NoNewcomers(before, after, watched)
    ensures FreeKeys(before, watched, late) <= FreeKeys(after, watched, late)
  {
    if FreeKeys(before, watched, late) != {} {
      assert !AnyUnresolved(before);
      forall t | t in after && Concerns(after[t], watched)
        ensures t in before && before[t].Some? && after[t] == before[t]
      {
        assert t in before;
      }
    }
  }

  function RoundsOf(flights: seq<Flight>, live: set<Key>, tombstones: set<Key>, watched: set<Key>, late: bool): (r: seq<Round>)
    ensures |r| == |flights|
    ensures forall i :: 0 <= i < |r| ==>
      r[i] == Round(live, tombstones, live, tombstones, FreeKeys(flights[i], watched, late))
  {
    seq(|flights|, i requires 0 <= i < |flights| =>
      Round(live, tombstones, live, tombstones, FreeKeys(flights[i], watched, late)))
  }

  /** With no further reload, and turns on retired or policy-changed routes that only finish or stay stuck, the chain
      ends after at most REAP_MAX_FOLLOWUP_ATTEMPTS + 1 passes, leaves nothing that it did not force, and serves every key. */
  lemma TurnsEndTheChain(flights: seq<Flight>, extra: set<Key>, live: set<Key>, tombstones: set<Key>, late: bool)
    requires |flights| > REAP_MAX_FOLLOWUP_ATTEMPTS
    requires forall i, j :: 0 <= i < j < |flights| ==> NoNewcomers(flights[i], flights[j], tombstones - live + extra)
    ensures var c := Chain(RoundsOf(flights, live, tombstones, tombstones - live + extra, late), extra, 0, None);
      && 0 < |c| <= REAP_MAX_FOLLOWUP_ATTEMPTS + 1
      && c[|c| - 1].next.None? && c[|c| - 1].leftover == c[|c| - 1].forced
      && forall key :: key in tombstones - live + extra * live ==> Served(c, key)
  {
    var watched := tombstones - live + extra;
    var rounds := RoundsOf(flights, live, tombstones, watched, late);
    forall i, j | 0 <= i < j < |rounds| ensures rounds[i].free * (tombstones - live) <= rounds[j].free {
      FreeKeysGrow(flights[i], flights[j], watched, late);
    }
    ReloadChainEnds(rounds, extra, live, tombstones);
  }

  // ---------------------------------------------------------------------------------------------
  // New turns on retired routes
  // ---------------------------------------------------------------------------------------------

  /** Two retired routes whose turns take turns at being stuck: each key is drained every other pass. */
  function Alternating(a: Key, b: Key, n: nat): seq<Round>
    ensures |Alternating(a, b, n)| == n
    decreases n
  {
    if n == 0 then [] else [Round({}, {a, b}, {}, {a, b}, {b})] + Alternating(b, a, n - 1)
  }

  /** The proviso is needed: with turns that come and go on retired routes a chain can get as long as one likes and
      force nothing. */
  lemma {:induction false} ChainCanGoOn(a: Key, b: Key, n: nat, attempt: nat, eligible: Option<set<Key>>)
    requires a != b && (eligible.Some? ==> eligible.value == {b})
    ensures var c := Chain(Alternating(a, b, n), {}, attempt, eligible);
      |c| == n && forall i :: 0 <= i < n ==> c[i].forced == {} && c[i].leftover != {}
    decreases n
  {
    if n > 0 {
      var r := Round({}, {a, b}, {}, {a, b}, {b});
      var o := PassIn(r, {}, attempt, eligible);
      AlternatingPass(a, b, attempt, eligible);
      assert Alternating(a, b, n)[0] == r && Alternating(a, b, n)[1..] == Alternating(b, a, n - 1);
      hide PassIn;
      ChainCanGoOn(b, a, n - 1, attempt + 1, Some({a}));
      assert Chain(Alternating(a, b, n), {}, attempt, eligible) == [o] + Chain(Alternating(b, a, n - 1), {}, attempt + 1, Some({a}));
    }
  }

  lemma AlternatingPass(a: Key, b: Key, attempt: nat, eligible: Option<set<Key>>)
    requires a != b && (eligible.Some? ==> eligible.value == {b})
    ensures var o := PassIn(Round({}, {a, b}, {}, {a, b}, {b}), {}, attempt, eligible);
      o.leftover == {a} && o.forced == {} && o.next == Some(FollowUp({}, attempt + 1, {a}))
  {
    var o := PassIn(Round({}, {a, b}, {}, {a, b}, {b}), {}, attempt, eligible);
    assert o.drained == {b};
    assert o.leftover == {a};
    assert o.leftover * o.drainKeys * (if eligible.Some? then eligible.value else {}) == {};
    assert {} * {} - {b} == {};
  }
}
