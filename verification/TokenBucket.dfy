/** The token bucket that caps prompts, and the accounting of the turns that reserve from it. */
module TokenBucket {
  import opened Options

  /** What changes in a bucket: its tokens and the reading of its last refill, in milliseconds. */
  datatype Level = Level(tokens: real, last: Option<int>)

  /** What does not change. */
  datatype Rate = Rate(capacity: real, perSecond: real) {
    predicate Valid() { capacity >= 1.0 && perSecond > 0.0 }
  }

  function Min(a: real, b: real): real { if a <= b then a else b }

  function Max(a: int, b: int): int { if a >= b then a else b }

  function Full(r: Rate): Level { Level(r.capacity, None) }

  function Refilled(r: Rate, l: Level, now: int): Level {
    match l.last
    case None => l.(last := Some(now))
    case Some(last) =>
      if now - last <= 0 then l
      else Level(Min(r.capacity, l.tokens + (now - last) as real / 1000.0 * r.perSecond), Some(now))
  }

  function Acquired(r: Rate, l: Level, now: int): (Level, bool) {
    var m := Refilled(r, l, now);
    if m.tokens >= 1.0 then (m.(tokens := m.tokens - 1.0), true) else (m, false)
  }

  function Refunded(r: Rate, l: Level): Level {
    l.(tokens := Min(r.capacity, l.tokens + 1.0))
  }

  class TokenBucket {
    const rate: Rate
    var tokens: real
    var lastRefillMs: Option<int>

    ghost predicate Valid() reads this { rate.Valid() && 0.0 <= tokens <= rate.capacity }

    ghost function View(): Level reads this { Level(tokens, lastRefillMs) }

    constructor (rate: Rate)
      requires rate.Valid()
      ensures Valid() && this.rate == rate && View() == Full(rate)
    {
      this.rate := rate;
      tokens := rate.capacity;
      lastRefillMs := None;
    }

    /** The source's constructor: a capacity below one or a rate that is not positive is an error. */
    static method Create(capacity: real, perSecond: real) returns (bucket: TokenBucket?)
      ensures bucket == null <==> capacity < 1.0 || perSecond <= 0.0
      ensures bucket != null ==>
        fresh(bucket) && bucket.Valid() && bucket.rate == Rate(capacity, perSecond) && bucket.View() == Full(bucket.rate)
    {
      if capacity < 1.0 || perSecond <= 0.0 {
        return null;
      }
      bucket := new TokenBucket(Rate(capacity, perSecond));
    }

    method Refill(now: int)
      requires Valid()
      modifies this
      ensures Valid() && View() == Refilled(rate, old(View()), now)
    {
      match lastRefillMs
      case None =>
        lastRefillMs := Some(now);
      case Some(last) =>
        var elapsed := now - last;
        if elapsed <= 0 {
          return;
        }
        tokens := Min(rate.capacity, tokens + elapsed as real / 1000.0 * rate.perSecond);
        lastRefillMs := Some(now);
    }

    method TryAcquire(now: int) returns (granted: bool)
      requires Valid()
      modifies this
      ensures Valid() && (View(), granted) == Acquired(rate, old(View()), now)
    {
      Refill(now);
      if tokens >= 1.0 {
        tokens := tokens - 1.0;
        return true;
      }
      return false;
    }

    method Refund()
      requires Valid()
      modifies this
      ensures Valid() && View() == Refunded(rate, old(View()))
    {
      tokens := Min(rate.capacity, tokens + 1.0);
    }
  }

  // ---------------------------------------------------------------------------------------------
  // Any run of one bucket
  // ---------------------------------------------------------------------------------------------

  datatype Call = Acquire(now: int) | Refund

  predicate Granted(r: Rate, l: Level, c: Call) { c.Acquire? && Acquired(r, l, c.now).1 }

  function After(r: Rate, l: Level, c: Call): Level {
    match c
    case Acquire(now) => Acquired(r, l, now).0
    case Refund => Refunded(r, l)
  }

  function RunCalls(r: Rate, l: Level, calls: seq<Call>): Level
    decreases |calls|
  {
    if calls == [] then l else RunCalls(r, After(r, l, calls[0]), calls[1..])
  }

  /** Grants minus refunds. */
  function Net(r: Rate, l: Level, calls: seq<Call>): int
    decreases |calls|
  {
    if calls == [] then 0
    else
      (if Granted(r, l, calls[0]) then 1 else if calls[0].Refund? then -1 else 0)
      + Net(r, After(r, l, calls[0]), calls[1..])
  }

  /** The running maximum of the clock, starting from an earlier reading if there is one. */
  function Latest(seen: Option<int>, calls: seq<Call>): Option<int>
    decreases |calls|
  {
    if calls == [] then seen
    else
      match calls[0]
      case Refund => Latest(seen, calls[1..])
      case Acquire(now) => Latest(Some(if seen.Some? then Max(seen.value, now) else now), calls[1..])
  }

  /** By how much the running maximum advances. */
  function Advance(seen: Option<int>, calls: seq<Call>): int
    decreases |calls|
  {
    if calls == [] then 0
    else
      match calls[0]
      case Refund => Advance(seen, calls[1..])
      case Acquire(now) =>
        if seen.None? then Advance(Some(now), calls[1..])
        else Max(seen.value, now) - seen.value + Advance(Some(Max(seen.value, now)), calls[1..])
  }

  ghost predicate InRange(r: Rate, l: Level) { r.Valid() && 0.0 <= l.tokens <= r.capacity }

  function Minted(r: Rate, ms: int): real { ms as real / 1000.0 * r.perSecond }

  lemma MintedAdds(r: Rate, a: int, b: int)
    ensures Minted(r, a + b) == Minted(r, a) + Minted(r, b)
  {
    assert (a + b) as real == a as real + b as real;
    assert (a + b) as real / 1000.0 == a as real / 1000.0 + b as real / 1000.0;
  }

  lemma OneCall(r: Rate, l: Level, c: Call)
    requires InRange(r, l)
    ensures InRange(r, After(r, l, c))
    ensures After(r, l, c).last == Latest(l.last, [c])
    ensures Net(r, l, [c]) as real <= l.tokens - After(r, l, c).tokens + Minted(r, Advance(l.last, [c]))
  {
    assert Minted(r, 0) == 0.0;
    assert Net(r, After(r, l, c), []) == 0;
    if c.Acquire? {
      hide Minted, Acquired;
      assert Advance(if l.last.Some? then Some(Max(l.last.value, c.now)) else Some(c.now), []) == 0;
    }
  }

  /** Whatever the clock reads, tokens stay between zero and the capacity, the last refill is the running maximum of
      the clock, and what was granted and not refunded is covered by the tokens spent and the time passed. */
  lemma {:induction false} GrantsAreCovered(r: Rate, l: Level, calls: seq<Call>)
    requires InRange(r, l)
    ensures InRange(r, RunCalls(r, l, calls))
    ensures RunCalls(r, l, calls).last == Latest(l.last, calls)
    ensures Net(r, l, calls) as real
            <= l.tokens - RunCalls(r, l, calls).tokens + Minted(r, Advance(l.last, calls))
    decreases |calls|
  {
    if calls == [] {
    } else {
      var c, rest := calls[0], calls[1..];
      var m := After(r, l, c);
      OneCall(r, l, c);
      GrantsAreCovered(r, m, rest);
      assert Net(r, l, calls) == Net(r, l, [c]) + Net(r, m, rest);
      assert Advance(l.last, calls) == Advance(l.last, [c]) + Advance(m.last, rest);
      MintedAdds(r, Advance(l.last, [c]), Advance(m.last, rest));
    }
  }

  /** The prompt rate bound between any two calls of a bucket. */
  lemma GrantsAreBounded(r: Rate, l: Level, calls: seq<Call>)
    requires InRange(r, l)
    ensures Net(r, l, calls) as real <= r.capacity + Minted(r, Advance(l.last, calls))
  {
    GrantsAreCovered(r, l, calls);
  }

  // ---------------------------------------------------------------------------------------------
  // Not only a bound
  // ---------------------------------------------------------------------------------------------

  /** A call is granted exactly if what is stored and what came in since the last refill make a whole token, and it takes
      one; the rest stays, up to the capacity, and a clock that did not advance brings nothing. */
  lemma GrantsExactly(r: Rate, l: Level, now: int)
    requires InRange(r, l)
    ensures var came := if l.last.Some? && l.last.value < now then Minted(r, now - l.last.value) else 0.0;
      var granted, l' := Granted(r, l, Acquire(now)), After(r, l, Acquire(now));
      && (granted <==> l.tokens + came >= 1.0)
      && l'.tokens + (if granted then 1.0 else 0.0) == (if l.tokens + came > r.capacity then r.capacity else l.tokens + came)
      && l'.last == Some(if l.last.Some? && now < l.last.value then l.last.value else now)
  {
  }

  /** A refund brings one token back, up to the capacity. */
  lemma RefundsExactly(r: Rate, l: Level)
    requires InRange(r, l)
    ensures var l' := After(r, l, Refund);
      l'.last == l.last && l'.tokens == (if l.tokens + 1.0 > r.capacity then r.capacity else l.tokens + 1.0)
  {
  }

  predicate OnlyAcquires(calls: seq<Call>) { forall c :: c in calls ==> c.Acquire? }

  /** As many calls as there are whole tokens are all granted, however close together they come; a full bucket thus grants
      a burst of its whole capacity. */
  lemma {:induction false} BurstIsGranted(r: Rate, l: Level, calls: seq<Call>)
    requires InRange(r, l) && OnlyAcquires(calls) && |calls| as real <= l.tokens
    ensures Net(r, l, calls) == |calls|
    decreases |calls|
  {
    if calls != [] {
      var c, rest := calls[0], calls[1..];
      assert c in calls && forall d :: d in rest ==> d in calls;
      GrantsExactly(r, l, c.now);
      if l.last.Some? && l.last.value < c.now {
        MintedIsPositive(r, l, c.now);
      }
      assert |rest| as real == |calls| as real - 1.0;
      BurstIsGranted(r, After(r, l, c), rest);
    }
  }

  lemma MintedIsPositive(r: Rate, l: Level, now: int)
    requires InRange(r, l) && l.last.Some? && l.last.value < now
    ensures Minted(r, now - l.last.value) >= 0.0
  {
  }

  // ---------------------------------------------------------------------------------------------
  // Turns that reserve, prompt or give the token back
  // ---------------------------------------------------------------------------------------------

  type TurnId = nat

  /** One bucket and the turns that reserved from it: those that hold a token and did not prompt yet, and those that
      started their prompt. A turn that was refused or gave its token back is in neither. */
  datatype Turns = Turns(level: Level, reserved: set<TurnId>, prompted: set<TurnId>)

  datatype Step = Reserve(turn: TurnId, now: int) | Prompt(turn: TurnId) | Finish(turn: TurnId)

  /** A turn reserves once, prompts only with the token it holds, and finishes at any point. */
  predicate Allowed(s: Turns, e: Step) {
    match e
    case Reserve(t, _) => t !in s.reserved && t !in s.prompted
    case Prompt(t) => t in s.reserved
    case Finish(_) => true
  }

  function Apply(r: Rate, s: Turns, e: Step): Turns {
    match e
    case Reserve(t, now) =>
      var (l, granted) := Acquired(r, s.level, now);
      s.(level := l, reserved := if granted then s.reserved + {t} else s.reserved)
    case Prompt(t) => s.(reserved := s.reserved - {t}, prompted := s.prompted + {t})
    case Finish(t) =>
      if t in s.reserved then s.(level := Refunded(r, s.level), reserved := s.reserved - {t}) else s
  }

  predicate AllowedRun(r: Rate, s: Turns, es: seq<Step>)
    decreases |es|
  {
    es == [] || (Allowed(s, es[0]) && AllowedRun(r, Apply(r, s, es[0]), es[1..]))
  }

  function RunTurns(r: Rate, s: Turns, es: seq<Step>): Turns
    decreases |es|
  {
    if es == [] then s else RunTurns(r, Apply(r, s, es[0]), es[1..])
  }

  /** The bucket calls behind one step. */
  function CallsOf(s: Turns, e: Step): seq<Call> {
    match e
    case Reserve(_, now) => [Acquire(now)]
    case Prompt(_) => []
    case Finish(t) => if t in s.reserved then [Refund] else []
  }

  function CallsOfRun(r: Rate, s: Turns, es: seq<Step>): seq<Call>
    decreases |es|
  {
    if es == [] then [] else CallsOf(s, es[0]) + CallsOfRun(r, Apply(r, s, es[0]), es[1..])
  }

  lemma {:induction false} NetSplits(r: Rate, l: Level, a: seq<Call>, b: seq<Call>)
    ensures Net(r, l, a + b) == Net(r, l, a) + Net(r, RunCalls(r, l, a), b)
    ensures RunCalls(r, l, a + b) == RunCalls(r, RunCalls(r, l, a), b)
    decreases |a|
  {
    if a == [] {
      assert a + b == b;
    } else {
      NetSplits(r, After(r, l, a[0]), a[1..], b);
      assert (a + b)[1..] == a[1..] + b;
    }
  }

  /** The tokens out are exactly the turns that hold one and the turns that prompted. */
  lemma {:induction false} TurnsAreGrants(r: Rate, s: Turns, es: seq<Step>)
    requires AllowedRun(r, s, es) && s.reserved !! s.prompted
    ensures var s', calls := RunTurns(r, s, es), CallsOfRun(r, s, es);
      && s'.reserved !! s'.prompted
      && s'.level == RunCalls(r, s.level, calls)
      && |s'.prompted| + |s'.reserved| == |s.prompted| + |s.reserved| + Net(r, s.level, calls)
    decreases |es|
  {
    if es != [] {
      var e := es[0];
      TurnsAreGrants(r, Apply(r, s, e), es[1..]);
      NetSplits(r, s.level, CallsOf(s, e), CallsOfRun(r, Apply(r, s, e), es[1..]));
    }
  }

  /** Between any two moments, the prompts that start are at most the turns that already held a token, plus the
      capacity, plus what the running-maximum clock mints in between. */
  lemma PromptsAreBounded(r: Rate, s: Turns, es: seq<Step>)
    requires InRange(r, s.level) && s.reserved !! s.prompted && AllowedRun(r, s, es)
    ensures (|RunTurns(r, s, es).prompted| - |s.prompted|) as real
            <= |s.reserved| as real + r.capacity + Minted(r, Advance(s.level.last, CallsOfRun(r, s, es)))
  {
    var calls := CallsOfRun(r, s, es);
    TurnsAreGrants(r, s, es);
    GrantsAreBounded(r, s.level, calls);
    assert |RunTurns(r, s, es).prompted| - |s.prompted| <= |s.reserved| + Net(r, s.level, calls);
  }

  /** Since the bucket was made, prompts are at most the capacity plus what the clock minted. */
  lemma PromptsSinceCreation(r: Rate, es: seq<Step>)
    requires r.Valid() && AllowedRun(r, Turns(Full(r), {}, {}), es)
    ensures var s := Turns(Full(r), {}, {});
            |RunTurns(r, s, es).prompted| as real <= r.capacity + Minted(r, Advance(None, CallsOfRun(r, s, es)))
  {
    PromptsAreBounded(r, Turns(Full(r), {}, {}), es);
  }

  // ---------------------------------------------------------------------------------------------
  // The buckets of the router
  // ---------------------------------------------------------------------------------------------

  datatype Key = Key(route: string, maxTurns: nat, windowSeconds: real) {
    predicate Valid() { maxTurns >= 1 && windowSeconds > 0.0 }

    function BucketRate(): Rate
      requires Valid()
    {
      Rate(maxTurns as real, maxTurns as real / windowSeconds)
    }
  }

  class RateLimiter {
    var buckets: map<Key, TokenBucket>

    ghost predicate Valid()
      reads this, buckets.Values
    {
      && (forall k :: k in buckets ==> k.Valid() && buckets[k].Valid() && buckets[k].rate == k.BucketRate())
      && (forall j, k :: j in buckets && k in buckets && j != k ==> buckets[j] != buckets[k])
    }

    /** The level a key has, or would have when its bucket is made. */
    ghost function LevelOf(key: Key): Level
      requires key.Valid()
      reads this, buckets.Values
    {
      if key in buckets then buckets[key].View() else Full(key.BucketRate())
    }

    /** The bucket object that lent the token, or null. */
    method Reserve(key: Key, now: int) returns (bucket: TokenBucket?)
      requires Valid() && key.Valid()
      modifies this, if key in buckets then {buckets[key]} else {}
      ensures Valid() && key in buckets && (key in old(buckets) || fresh(buckets[key]))
      ensures buckets == old(buckets)[key := buckets[key]]
      ensures key in old(buckets) ==> buckets[key] == old(buckets[key])
      ensures var (after, granted) := Acquired(key.BucketRate(), old(LevelOf(key)), now);
              LevelOf(key) == after && bucket == if granted then buckets[key] else null
    {
      if key !in buckets {
        var made := new TokenBucket(key.BucketRate());
        buckets := buckets[key := made];
      }
      var b := buckets[key];
      var granted := b.TryAcquire(now);
      bucket := if granted then b else null;
    }

    /** A reload drops the buckets whose limit is gone. */
    method Prune(live: set<Key>)
      requires Valid()
      modifies this
      ensures Valid() && buckets == map k | k in old(buckets) && k in live :: old(buckets)[k]
    {
      buckets := map k | k in buckets && k in live :: buckets[k];
    }

    /** A turn that outlives its bucket gives the token back to the bucket it took it from: the replacement under the
        same key is a different object and keeps its level. */
    method RefundAfterReplacement(key: Key, lent: TokenBucket, now: int)
      requires Valid() && key in buckets && buckets[key] == lent
      modifies this, lent
      ensures Valid() && key in buckets && buckets[key] != lent && fresh(buckets[key])
      ensures buckets[key].View() == Acquired(key.BucketRate(), Full(key.BucketRate()), now).0
      ensures lent.View() == Refunded(lent.rate, old(lent.View()))
    {
      Prune(buckets.Keys - {key});
      var granted := Reserve(key, now);
      lent.Refund();
    }
  }
}
