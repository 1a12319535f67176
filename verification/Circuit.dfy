/** The circuit breaker: per route, the times of the failures since the last success, cut to a sliding
    window each time a failure is recorded or counted. */
module Circuit {
  import opened Options

  /** The deque with its old entries dropped from the left. */
  function DropOld(fs: seq<real>, cutoff: real): seq<real> {
    if fs != [] && fs[0] < cutoff then DropOld(fs[1..], cutoff) else fs
  }

  /** The failures of a history that are not older than `cutoff`. */
  function InWindow(history: seq<real>, cutoff: real): seq<real> {
    if history == [] then []
    else if history[0] >= cutoff then [history[0]] + InWindow(history[1..], cutoff)
    else InWindow(history[1..], cutoff)
  }

  predicate Ascending(fs: seq<real>) {
    forall i, j :: 0 <= i < j < |fs| ==> fs[i] <= fs[j]
  }

  predicate NoLaterThan(fs: seq<real>, now: real) {
    forall t | t in fs :: t <= now
  }

  lemma {:induction false} AllInWindow(fs: seq<real>, cutoff: real)
    requires forall i :: 0 <= i < |fs| ==> fs[i] >= cutoff
    ensures InWindow(fs, cutoff) == fs
  {
    if fs != [] {
      AllInWindow(fs[1..], cutoff);
    }
  }

  /** On failure times that never go back, dropping from the left is filtering. */
  lemma {:induction false} DropOldIsWindow(fs: seq<real>, cutoff: real)
    requires Ascending(fs)
    ensures DropOld(fs, cutoff) == InWindow(fs, cutoff)
  {
    if fs != [] {
      if fs[0] < cutoff {
        DropOldIsWindow(fs[1..], cutoff);
      } else {
        AllInWindow(fs, cutoff);
      }
    }
  }

  lemma {:induction false} WindowFacts(history: seq<real>, cutoff: real)
    requires Ascending(history)
    ensures Ascending(InWindow(history, cutoff))
    ensures forall t | t in InWindow(history, cutoff) :: t in history && t >= cutoff
  {
    if history != [] {
      WindowFacts(history[1..], cutoff);
      var r := InWindow(history[1..], cutoff);
      if history[0] >= cutoff {
        forall i | 0 <= i < |r| ensures history[0] <= r[i] {
          assert r[i] in r;
          var j :| 0 <= j < |history[1..]| && history[1..][j] == r[i];
          assert history[j + 1] == r[i];
        }
      }
    }
  }

  lemma {:induction false} WindowAppend(history: seq<real>, t: real, cutoff: real)
    requires t >= cutoff
    ensures InWindow(history + [t], cutoff) == InWindow(history, cutoff) + [t]
  {
    if history == [] {
      assert history + [t] == [t];
    } else {
      WindowAppend(history[1..], t, cutoff);
      assert (history + [t])[1..] == history[1..] + [t];
    }
  }

  lemma {:induction false} WindowNarrows(history: seq<real>, wide: real, narrow: real)
    requires wide <= narrow
    ensures InWindow(InWindow(history, wide), narrow) == InWindow(history, narrow)
  {
    if history != [] {
      WindowNarrows(history[1..], wide, narrow);
      if history[0] >= wide {
        var r := InWindow(history[1..], wide);
        assert ([history[0]] + r)[0] == history[0] && ([history[0]] + r)[1..] == r;
      }
    }
  }

  lemma AscendingAppend(fs: seq<real>, t: real)
    requires Ascending(fs) && NoLaterThan(fs, t)
    ensures Ascending(fs + [t])
  {
    forall i, j | 0 <= i < j < |fs + [t]| ensures (fs + [t])[i] <= (fs + [t])[j] {
      if j == |fs| {
        assert fs[i] in fs;
      }
    }
  }

  function PastOf(times: map<string, seq<real>>, key: string): seq<real> {
    if key in times then times[key] else []
  }

  /** A deque holds the window, as of its last cut, of the failures since the last success. */
  ghost predicate EntryOk(fs: seq<real>, history: seq<real>, low: real, clock: real, window: real) {
    && fs == InWindow(history, low) && low <= clock - window
    && Ascending(history) && NoLaterThan(history, clock)
  }

  ghost predicate EntriesOk(
    deques: map<string, seq<real>>, history: map<string, seq<real>>, low: map<string, real>, clock: real, window: real)
  {
    && deques.Keys == history.Keys == low.Keys
    && forall k | k in deques :: EntryOk(deques[k], history[k], low[k], clock, window)
  }

  /** What holds of the recorded times still holds at a later clock reading. */
  lemma LaterStill(
    deques: map<string, seq<real>>, history: map<string, seq<real>>, low: map<string, real>, clock: real, now: real, window: real)
    requires EntriesOk(deques, history, low, clock, window) && now >= clock
    ensures EntriesOk(deques, history, low, now, window)
  {
  }

  lemma RecordEntry(
    deques: map<string, seq<real>>, history: map<string, seq<real>>, low: map<string, real>, key: string, now: real, window: real)
    requires EntriesOk(deques, history, low, now, window) && window >= 0.0
    ensures var fs, past := DropOld(PastOf(deques, key) + [now], now - window), PastOf(history, key) + [now];
      && fs == InWindow(past, now - window)
      && EntriesOk(deques[key := fs], history[key := past], low[key := now - window], now, window)
  {
    assert EntryOk([], [], now - window, now, window);
    var bound := if key in low then low[key] else now - window;
    RecordIsWindow(PastOf(deques, key), PastOf(history, key), bound, now, window);
  }

  lemma CountEntry(
    deques: map<string, seq<real>>, history: map<string, seq<real>>, low: map<string, real>, key: string, now: real, window: real)
    requires EntriesOk(deques, history, low, now, window) && key in deques
    ensures var fs := DropOld(deques[key], now - window);
      && fs == InWindow(history[key], now - window)
      && EntriesOk(deques[key := fs], history, low[key := now - window], now, window)
  {
    CountIsWindow(deques[key], history[key], low[key], now, window);
  }

  /** The deque stays the window of the history through the recording of a failure. */
  lemma RecordIsWindow(fs: seq<real>, history: seq<real>, low: real, now: real, window: real)
    requires EntryOk(fs, history, low, now, window) && window >= 0.0
    ensures DropOld(fs + [now], now - window) == InWindow(history + [now], now - window)
    ensures EntryOk(DropOld(fs + [now], now - window), history + [now], now - window, now, window)
  {
    WindowFacts(history, low);
    AscendingAppend(history, now);
    AscendingAppend(fs, now);
    DropOldIsWindow(fs + [now], now - window);
    WindowAppend(fs, now, now - window);
    WindowAppend(history, now, now - window);
    WindowNarrows(history, low, now - window);
  }

  lemma CountIsWindow(fs: seq<real>, history: seq<real>, low: real, now: real, window: real)
    requires EntryOk(fs, history, low, now, window)
    ensures DropOld(fs, now - window) == InWindow(history, now - window)
    ensures EntryOk(DropOld(fs, now - window), history, now - window, now, window)
  {
    WindowFacts(history, low);
    DropOldIsWindow(fs, now - window);
    WindowNarrows(history, low, now - window);
  }

  /** `while failures and failures[0] < cutoff: failures.popleft()` */
  method PopOld(fs: seq<real>, cutoff: real) returns (r: seq<real>)
    ensures r == DropOld(fs, cutoff)
  {
    r := fs;
    while r != [] && r[0] < cutoff
      invariant DropOld(r, cutoff) == DropOld(fs, cutoff)
      decreases |r|
    {
      r := r[1..];
    }
  }

  datatype Trip = NoTrip | Trip(routeKey: string, failures: nat, windowSeconds: real)

  predicate NotBefore(clock: Option<real>, now: real) { clock.Some? ==> now >= clock.value }

  class CircuitBreaker {
    const failures: int
    const windowSeconds: real
    var deques: map<string, seq<real>>
    /** Every failure recorded since the last success of its route, in order. */
    ghost var history: map<string, seq<real>>
    /** The cutoff each deque was last cut to, the latest reading, and whether no reading was earlier than the one
        before it. */
    ghost var low: map<string, real>
    ghost var clock: Option<real>
    ghost var steady: bool

    ghost predicate Valid()
      reads this
    {
      && windowSeconds >= 0.0
      && (clock.None? ==> deques == map[] && history == map[] && low == map[])
      && (steady && clock.Some? ==> EntriesOk(deques, history, low, clock.value, windowSeconds))
    }

    constructor (failures: int, windowSeconds: real)
      requires windowSeconds >= 0.0
      ensures Valid() && deques == map[] && this.failures == failures && this.windowSeconds == windowSeconds && steady
    {
      this.failures, this.windowSeconds := failures, windowSeconds;
      deques, history, low, clock, steady := map[], map[], map[], None, true;
    }

    method RecordSuccess(key: string)
      requires Valid()
      modifies this
      ensures Valid() && history == old(history) - {key} && clock == old(clock) && steady == old(steady)
      ensures deques == old(deques) - {key}
    {
      deques := deques - {key};
      history := history - {key};
      low := low - {key};
    }

    /** Appends the failure, drops what is older than the window from the left, and trips exactly when enough is left:
        as long as readings do not go back, that is the failures since the last success that lie in the window. */
    method RecordFailure(key: string, now: real) returns (trip: Trip)
      requires Valid()
      modifies this
      ensures Valid() && clock == Some(now) && steady == (old(steady) && NotBefore(old(clock), now))
      ensures deques == old(deques)[key := DropOld(PastOf(old(deques), key) + [now], now - windowSeconds)]
      ensures history == old(history)[key := PastOf(old(history), key) + [now]]
      ensures trip == if |deques[key]| >= failures then Trip(key, |deques[key]|, windowSeconds) else NoTrip
      ensures steady ==> deques[key] == InWindow(history[key], now - windowSeconds)
    {
      hide InWindow, DropOld;
      if steady && NotBefore(clock, now) {
        Steadily(deques, history, low, clock, now, windowSeconds);
        hide EntriesOk;
        RecordEntry(deques, history, low, key, now, windowSeconds);
      }
      var cutoff := now - windowSeconds;
      var fs := PopOld(PastOf(deques, key) + [now], cutoff);
      deques := deques[key := fs];
      history := history[key := PastOf(history, key) + [now]];
      low := low[key := cutoff];
      steady := steady && NotBefore(clock, now);
      clock := Some(now);
      if |fs| >= failures {
        trip := Trip(key, |fs|, windowSeconds);
      } else {
        trip := NoTrip;
      }
    }

    /** The same window, counted without recording anything. */
    method FailureCount(key: string, now: real) returns (n: nat)
      requires Valid()
      modifies this
      ensures Valid() && clock == Some(now) && steady == (old(steady) && NotBefore(old(clock), now))
      ensures history == old(history)
      ensures n == |DropOld(PastOf(old(deques), key), now - windowSeconds)|
      ensures steady ==> n == |InWindow(PastOf(history, key), now - windowSeconds)|
    {
      hide InWindow, DropOld;
      ghost var steadily := steady && NotBefore(clock, now);
      if steadily {
        Steadily(deques, history, low, clock, now, windowSeconds);
        hide EntriesOk;
        if key in deques {
          CountEntry(deques, history, low, key, now, windowSeconds);
        } else {
          NothingPast(deques, history, low, key, now, windowSeconds);
        }
      }
      NothingDropped(now - windowSeconds);
      steady, clock := steadily, Some(now);
      if key !in deques || deques[key] == [] {
        return 0;
      }
      var fs := PopOld(deques[key], now - windowSeconds);
      deques := deques[key := fs];
      low := low[key := now - windowSeconds];
      n := |fs|;
    }
  }

  /** A steady clock keeps what was recorded in order at the new reading. */
  lemma Steadily(
    deques: map<string, seq<real>>, history: map<string, seq<real>>, low: map<string, real>, clock: Option<real>, now: real,
    window: real)
    requires clock.None? ==> deques == map[] && history == map[] && low == map[]
    requires clock.Some? ==> EntriesOk(deques, history, low, clock.value, window) && now >= clock.value
    ensures EntriesOk(deques, history, low, now, window)
  {
    if clock.Some? {
      LaterStill(deques, history, low, clock.value, now, window);
    }
  }

  lemma NothingPast(
    deques: map<string, seq<real>>, history: map<string, seq<real>>, low: map<string, real>, key: string, now: real, window: real)
    requires EntriesOk(deques, history, low, now, window) && key !in deques
    ensures InWindow(PastOf(history, key), now - window) == []
  {
  }

  lemma NothingDropped(cutoff: real)
    ensures DropOld([], cutoff) == []
  {
  }
}
