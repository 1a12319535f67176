/** The bounded buffer of dispatched Signal turns: a count semaphore and a byte budget, both taken by the
    consumer before it reads the next event and given back when a turn's task settles. */
module DispatchBuffer {
  import opened Sums

  type TaskId = nat

  datatype Fut = Pending | Woken | Cancelled

  /** Where the consumer is suspended. `cancelled` marks a cancellation that came after its future was woken. */
  datatype Budget = Bytes | Count

  datatype Consumer =
    | Parked(on: Budget, fut: Fut, cancelled: bool)
    | Reading
    | Ended

  datatype State = State(
    cap: nat, limit: nat,
    value: nat, bytes: int, freed: bool,
    charged: map<TaskId, nat>,
    consumer: Consumer,
    lastCharge: nat)

  datatype Event =
    | Resume
    | Frame(t: TaskId, size: nat)
    | SourceEnds
    | CancelConsumer
    | Settle(t: TaskId)

  predicate WaitsFor(s: State, b: Budget) {
    s.consumer.Parked? && s.consumer.on == b
  }

  /** Suspended with nothing yet that would resume it. */
  predicate ParkedOn(s: State, b: Budget) {
    WaitsFor(s, b) && s.consumer.fut == Pending
  }

  /** The top of the consumer loop: park on the byte budget, or take a count permit, or park for one. */
  function LoopTop(s: State): State {
    if s.bytes >= s.limit then s.(freed := false, consumer := Parked(Bytes, Pending, false))
    else if s.value > 0 then s.(value := s.value - 1, consumer := Reading)
    else s.(consumer := Parked(Count, Pending, false))
  }

  function ReleaseCount(s: State): State {
    if ParkedOn(s, Count) then s.(consumer := s.consumer.(fut := Woken))
    else s.(value := s.value + 1)
  }

  function SetFreed(s: State): State {
    var s1 := s.(freed := true);
    if ParkedOn(s1, Bytes) then s1.(consumer := s1.consumer.(fut := Woken))
    else s1
  }

  function ResumeConsumer(s: State): State
    requires s.consumer.Parked?
  {
    var interrupted := s.consumer.fut == Cancelled || s.consumer.cancelled;
    match s.consumer.on
    case Bytes => if interrupted then s.(consumer := Ended) else LoopTop(s)
    case Count =>
      if !interrupted then s.(consumer := Reading)
      else if s.consumer.fut == Woken then s.(value := s.value + 1, consumer := Ended)
      else s.(consumer := Ended)
  }

  /** A frame was read: its turn is dispatched unconditionally and its size is charged. */
  function Dispatch(s: State, t: TaskId, size: nat): State {
    LoopTop(s.(bytes := s.bytes + size, charged := s.charged[t := size], lastCharge := size))
  }

  function SettleTask(s: State, t: TaskId): State
    requires t in s.charged
  {
    var size := s.charged[t];
    var s1 := s.(charged := s.charged - {t});
    var s2 := if size > 0 then SetFreed(s1.(bytes := s1.bytes - size)) else s1;
    ReleaseCount(s2)
  }

  function CancelIt(s: State): State
    requires s.consumer.Parked?
  {
    if s.consumer.fut == Pending then s.(consumer := s.consumer.(fut := Cancelled))
    else s.(consumer := s.consumer.(cancelled := true))
  }

  predicate Enabled(s: State, e: Event) {
    match e
    case Resume => s.consumer.Parked? && s.consumer.fut != Pending
    case Frame(t, _) => s.consumer.Reading? && t !in s.charged
    case SourceEnds => s.consumer.Reading?
    case CancelConsumer => s.consumer.Parked?
    case Settle(t) => t in s.charged
  }

  function Step(s: State, e: Event): State
    requires Enabled(s, e)
  {
    match e
    case Resume => ResumeConsumer(s)
    case Frame(t, size) => Dispatch(s, t, size)
    case SourceEnds => s.(value := s.value + 1, consumer := Ended)
    case CancelConsumer => CancelIt(s)
    case Settle(t) => SettleTask(s, t)
  }

  function Init(cap: nat, limit: nat): State {
    LoopTop(State(cap, limit, cap, 0, true, map[], Ended, 0))
  }

  predicate ValidRun(s: State, es: seq<Event>)
    decreases |es|
  {
    es == [] || (Enabled(s, es[0]) && ValidRun(Step(s, es[0]), es[1..]))
  }

  function Run(s: State, es: seq<Event>): State
    requires ValidRun(s, es)
    decreases |es|
  {
    if es == [] then s else Run(Step(s, es[0]), es[1..])
  }

  // ---------------------------------------------------------------------------------------------
  // The invariant
  // ---------------------------------------------------------------------------------------------

  function CountInUse(s: State): nat {
    |s.charged| + (if s.consumer.Reading? || (WaitsFor(s, Count) && s.consumer.fut == Woken) then 1 else 0)
  }

  ghost predicate Inv(s: State) {
    && s.limit > 0
    && s.value + CountInUse(s) == s.cap
    && s.bytes == Total(s.charged)
    && s.bytes < s.limit + s.lastCharge
    && (ParkedOn(s, Bytes) ==> !s.freed && s.bytes >= s.limit)
    && (ParkedOn(s, Count) ==> s.value == 0)
    && (WaitsFor(s, Count) || s.consumer.Reading? ==> s.bytes < s.limit)
  }

  lemma LoopTopKeeps(s: State)
    requires s.limit > 0 && s.value + |s.charged| == s.cap && s.bytes == Total(s.charged)
    requires s.bytes < s.limit + s.lastCharge
    ensures Inv(LoopTop(s))
  {
  }

  lemma DispatchKeeps(s: State, t: TaskId, size: nat)
    requires Inv(s) && s.consumer.Reading? && t !in s.charged
    ensures var s' := Dispatch(s, t, size); Inv(s') && s'.cap == s.cap && s'.limit == s.limit
  {
    TotalWith(s.charged, t, size);
    hide Total;
    LoopTopKeeps(s.(bytes := s.bytes + size, charged := s.charged[t := size], lastCharge := size));
  }

  lemma SettleKeeps(s: State, t: TaskId)
    requires Inv(s) && t in s.charged
    ensures var s' := SettleTask(s, t); Inv(s') && s'.cap == s.cap && s'.limit == s.limit
  {
    TotalWithout(s.charged, t);
    hide Total;
  }

  lemma StepKeeps(s: State, e: Event)
    requires Inv(s) && Enabled(s, e)
    ensures Inv(Step(s, e)) && Step(s, e).cap == s.cap && Step(s, e).limit == s.limit
  {
    hide Total, Dispatch, SettleTask;
    match e
    case Frame(t, size) =>
      DispatchKeeps(s, t, size);
    case Settle(t) =>
      SettleKeeps(s, t);
    case _ =>
  }

  lemma {:induction false} RunKeeps(s: State, es: seq<Event>)
    requires Inv(s) && ValidRun(s, es)
    ensures var s' := Run(s, es); Inv(s') && s'.cap == s.cap && s'.limit == s.limit
    decreases |es|
  {
    if es != [] {
      StepKeeps(s, es[0]);
      RunKeeps(Step(s, es[0]), es[1..]);
    }
  }

  /** The buffer is a hard bound in both currencies, over every run of consumer, turns and cancellation. */
  lemma BufferIsBounded(cap: nat, limit: nat, es: seq<Event>)
    requires limit > 0 && ValidRun(Init(cap, limit), es)
    ensures var s := Run(Init(cap, limit), es);
      && |s.charged| <= cap
      && s.bytes == Total(s.charged)
      && s.bytes < limit + s.lastCharge
  {
    RunKeeps(Init(cap, limit), es);
  }

  /** No lost wake-up: a consumer that stays parked is parked for a reason, and some dispatched turn is
      still there to wake it. */
  lemma NoLostWakeUp(cap: nat, limit: nat, es: seq<Event>)
    requires limit > 0 && cap > 0 && ValidRun(Init(cap, limit), es)
    ensures var s := Run(Init(cap, limit), es);
      && (ParkedOn(s, Bytes) ==>
            !s.freed && s.bytes >= limit && exists t :: t in s.charged && s.charged[t] > 0)
      && (ParkedOn(s, Count) ==> |s.charged| == cap)
  {
    RunKeeps(Init(cap, limit), es);
    var s := Run(Init(cap, limit), es);
    if s.bytes > 0 {
      PositiveSum(s.charged.Keys, s.charged);
    }
  }

  /** Every settled turn that frees bytes wakes a consumer parked on the byte budget, and every settled turn
      hands its count permit to a consumer parked for one. */
  lemma SettleWakes(s: State, t: TaskId)
    requires Inv(s) && t in s.charged
    ensures var s' := Step(s, Settle(t));
      && (s.consumer == Parked(Bytes, Pending, false) && s.charged[t] > 0 ==> s'.consumer == Parked(Bytes, Woken, false))
      && (s.consumer == Parked(Count, Pending, false) ==> s'.consumer == Parked(Count, Woken, false) && s'.value == s.value)
      && s'.bytes == s.bytes - s.charged[t]
  {
  }

  // ---------------------------------------------------------------------------------------------
  // What each event leads to
  // ---------------------------------------------------------------------------------------------

  /** Nothing but the consumer, its budgets and the charges differs. */
  predicate SameLimits(s: State, s': State) { s'.cap == s.cap && s'.limit == s.limit }

  /** The consumer has come round to its next read: it waits until the bytes are below the limit, then for a free place,
      and reads when it has both. `value` is the number of free places that it finds. */
  predicate AtLoopTop(s': State, value: nat) {
    if s'.bytes >= s'.limit then s'.consumer == Parked(Bytes, Pending, false) && !s'.freed && s'.value == value
    else if value == 0 then s'.consumer == Parked(Count, Pending, false) && s'.value == 0
    else s'.consumer == Reading && s'.value == value - 1
  }

  /** The consumer starts with all places free and nothing charged. */
  lemma StartOutcome(cap: nat, limit: nat)
    ensures var s := Init(cap, limit);
      s.cap == cap && s.limit == limit && s.charged == map[] && s.bytes == 0 && AtLoopTop(s, cap)
  {
  }

  /** A frame that was read is charged its own size, under its own task, and the consumer goes on. */
  lemma FrameOutcome(s: State, t: TaskId, size: nat)
    requires Enabled(s, Frame(t, size))
    ensures var s' := Step(s, Frame(t, size));
      && s'.charged == s.charged[t := size] && s'.bytes == s.bytes + size && SameLimits(s, s')
      && AtLoopTop(s', s.value)
  {
  }

  /** A settled turn gives back its own charge and its place: a consumer parked for a place gets it in hand, one parked on
      the bytes is woken if there were any to free, and otherwise the place is free. */
  lemma SettleOutcome(s: State, t: TaskId)
    requires Enabled(s, Settle(t))
    ensures var s', size := Step(s, Settle(t)), s.charged[t];
      && s'.charged == s.charged - {t} && s'.bytes == s.bytes - size && SameLimits(s, s')
      && s'.freed == (s.freed || size > 0)
      && (if ParkedOn(s, Count) then
            s'.consumer == s.consumer.(fut := Woken) && s'.value == s.value
          else
            && s'.value == s.value + 1
            && s'.consumer == if ParkedOn(s, Bytes) && size > 0 then s.consumer.(fut := Woken) else s.consumer)
  {
  }

  /** A consumer that continues reads with the place it was handed, or looks at both budgets anew; one whose cancellation
      is delivered ends, and leaves a place that it was handed to others. */
  lemma ResumeOutcome(s: State)
    requires Enabled(s, Resume)
    ensures var s', c := Step(s, Resume), s.consumer;
      var cancelled := c.fut == Cancelled || c.cancelled;
      && s'.charged == s.charged && s'.bytes == s.bytes && SameLimits(s, s')
      && (if cancelled then s'.consumer == Ended && s'.value == s.value + (if c == Parked(Count, Woken, true) then 1 else 0)
          else if c.on == Count then s'.consumer == Reading && s'.value == s.value
          else AtLoopTop(s', s.value))
  {
  }

  /** The end of the source gives back the place of the read that did not happen; a cancellation waits for the consumer to
      be resumed, which it brings about. */
  lemma EndAndCancelOutcomes(s: State)
    ensures Enabled(s, SourceEnds) ==>
      Step(s, SourceEnds) == s.(value := s.value + 1, consumer := Ended)
    ensures Enabled(s, CancelConsumer) ==>
      var s', c := Step(s, CancelConsumer), s.consumer;
      && s' == s.(consumer := s'.consumer) && Enabled(s', Resume) && s'.consumer.on == c.on
      && (s'.consumer.fut == Cancelled || s'.consumer.cancelled)
      && (c.fut == Woken ==> s'.consumer.fut == Woken)
  {
  }

  lemma {:induction false} RunTogether(s: State, es: seq<Event>, e: Event)
    requires ValidRun(s, es) && Enabled(Run(s, es), e)
    ensures ValidRun(s, es + [e]) && Run(s, es + [e]) == Step(Run(s, es), e)
    decreases |es|
  {
    hide Step, Enabled;
    if es == [] {
      assert (es + [e])[1..] == [];
    } else {
      assert (es + [e])[1..] == es[1..] + [e];
      RunTogether(Step(s, es[0]), es[1..], e);
    }
  }

  // ---------------------------------------------------------------------------------------------
  // The runtime object
  // ---------------------------------------------------------------------------------------------

  /** The fields of the router that make up the buffer, updated in place. */
  class Buffer {
    const cap: nat
    const limit: nat
    var value: nat
    var bytes: int
    var freed: bool
    var charged: map<TaskId, nat>
    var consumer: Consumer
    ghost var lastCharge: nat

    ghost function View(): State
      reads this
    {
      State(cap, limit, value, bytes, freed, charged, consumer, lastCharge)
    }

    constructor (cap: nat, limit: nat)
      requires limit > 0
      ensures View() == Init(cap, limit) && Inv(View())
    {
      this.cap, this.limit := cap, limit;
      value, bytes, freed, charged, lastCharge := cap, 0, true, map[], 0;
      consumer := Ended;
      new;
      RunLoopTop();
    }

    /** One pass from the loop top to the consumer's next suspension. */
    method RunLoopTop()
      requires limit > 0 && value + |charged| == cap && bytes == Total(charged) && bytes < limit + lastCharge
      modifies this
      ensures View() == LoopTop(old(View())) && Inv(View())
    {
      if bytes >= limit {
        freed := false;
        consumer := Parked(Bytes, Pending, false);
      } else if value > 0 {
        value := value - 1;
        consumer := Reading;
      } else {
        consumer := Parked(Count, Pending, false);
      }
    }

    /** The consumer has read a frame. */
    method DispatchFrame(t: TaskId, size: nat)
      requires Inv(View()) && Enabled(View(), Frame(t, size))
      modifies this
      ensures View() == Step(old(View()), Frame(t, size)) && Inv(View())
    {
      TotalWith(charged, t, size);
      bytes := bytes + size;
      charged := charged[t := size];
      lastCharge := size;
      RunLoopTop();
    }

    /** The done callback of a dispatched turn: forget it, free its bytes, release its permit last. */
    method SettleSignalTurnTask(t: TaskId)
      requires Inv(View()) && t in charged
      modifies this
      ensures View() == Step(old(View()), Settle(t)) && Inv(View())
    {
      SettleKeeps(View(), t);
      hide Inv, Total;
      var size := charged[t];
      charged := charged - {t};
      if size > 0 {
        bytes := bytes - size;
        freed := true;
        if consumer.Parked? && consumer.on == Bytes && consumer.fut == Pending {
          consumer := consumer.(fut := Woken);
        }
      }
      if consumer.Parked? && consumer.on == Count && consumer.fut == Pending {
        consumer := consumer.(fut := Woken);
      } else {
        value := value + 1;
      }
    }

    /** The event source ended, failed or was cancelled: the unused permit goes back. */
    method EndOfSource()
      requires Inv(View()) && consumer.Reading?
      modifies this
      ensures View() == Step(old(View()), SourceEnds) && Inv(View())
    {
      value := value + 1;
      consumer := Ended;
    }

    /** The suspended consumer continues, or unwinds when it was cancelled. */
    method ResumeSuspended()
      requires Inv(View()) && Enabled(View(), Resume)
      modifies this
      ensures View() == Step(old(View()), Resume) && Inv(View())
    {
      StepKeeps(View(), Resume);
      var interrupted := consumer.fut == Cancelled || consumer.cancelled;
      if interrupted {
        if consumer.on == Count && consumer.fut == Woken {
          value := value + 1;
        }
        consumer := Ended;
      } else if consumer.on == Bytes {
        RunLoopTop();
      } else {
        consumer := Reading;
      }
    }
  }
}
