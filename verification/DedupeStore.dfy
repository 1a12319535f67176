/** The durable table of claimed and handled events, one call at a time. */
module DedupeStore {
  import opened Options

  datatype Status = Processing | Handled

  /** A row carries the retention clock reading of its last write. */
  datatype Row = Row(status: Status, updatedAt: int)

  datatype Id = Id(route: string, sender: string, timestamp: int)

  type Table = map<Id, Row>

  predicate IsProcessing(t: Table, id: Id) { id in t && t[id].status.Processing? }

  predicate IsHandled(t: Table, id: Id) { id in t && t[id].status.Handled? }

  function Claimed(t: Table, id: Id, now: int): Table {
    if id in t then t else t[id := Row(Processing, now)]
  }

  function Marked(t: Table, id: Id, now: int): Table { t[id := Row(Handled, now)] }

  function Released(t: Table, id: Id): Table { if IsProcessing(t, id) then t - {id} else t }

  /** What a crash leaves once the store is opened again. */
  function Reclaimed(t: Table): Table { map id | id in t && t[id].status.Handled? :: t[id] }

  /** What a retention sweep with this cutoff may delete. */
  function Prunable(t: Table, cutoff: int): set<Id> {
    set id | id in t && t[id].status.Handled? && t[id].updatedAt < cutoff
  }

  const PRUNE_CHUNK_ROWS: nat := 1000

  /** At most `chunks` chunks of rows. */
  predicate Within(rows: nat, chunks: nat) { rows <= chunks * PRUNE_CHUNK_ROWS }

  lemma NoChunkYet()
    ensures Within(0, 0)
  {
  }

  lemma OneMoreChunk(rows: nat, more: nat, chunks: nat)
    requires Within(rows, chunks) && more <= PRUNE_CHUNK_ROWS
    ensures Within(rows + more, chunks + 1)
  {
  }

  datatype Reply<T> = Refused | Done(value: T)

  class DedupeStore {
    var table: Table
    var active: nat
    var closeRequested: bool
    var closed: bool

    /** A request to close that is not served yet has an operation in flight to serve it. */
    ghost predicate Valid() reads this { (closeRequested ==> closed || active > 0) && (closed ==> active == 0) }

    predicate Refusing() reads this { closed || closeRequested }

    /** Opening a store over what a previous process left. */
    constructor (persisted: Table)
      ensures Valid() && !Refusing() && active == 0 && table == Reclaimed(persisted)
    {
      table := Reclaimed(persisted);
      active, closeRequested, closed := 0, false, false;
    }

    method BeginOperation() returns (started: bool)
      modifies this
      ensures started == !old(Refusing())
      ensures active == old(active) + (if started then 1 else 0)
      ensures table == old(table) && closed == old(closed) && closeRequested == old(closeRequested)
    {
      if Refusing() {
        return false;
      }
      active := active + 1;
      return true;
    }

    method EndOperation()
      requires active > 0
      modifies this
      ensures active == old(active) - 1 && table == old(table) && closeRequested == old(closeRequested)
      ensures closed == (old(closed) || (active == 0 && closeRequested))
    {
      active := active - 1;
      if active == 0 && closeRequested && !closed {
        closed := true;
      }
    }

    method Claim(id: Id, now: int) returns (r: Reply<bool>)
      requires Valid()
      modifies this
      ensures Valid() && unchanged(`active, `closeRequested, `closed)
      ensures r == if Refusing() then Refused else Done(id !in old(table))
      ensures table == if Refusing() then old(table) else Claimed(old(table), id, now)
    {
      var started := BeginOperation();
      if !started {
        return Refused;
      }
      if id in table {
        r := Done(false);
      } else {
        table := table[id := Row(Processing, now)];
        r := Done(true);
      }
      EndOperation();
    }

    method MarkHandled(id: Id, now: int) returns (r: Reply<()>)
      requires Valid()
      modifies this
      ensures Valid() && unchanged(`active, `closeRequested, `closed) && r.Refused? == Refusing()
      ensures table == if Refusing() then old(table) else Marked(old(table), id, now)
    {
      var started := BeginOperation();
      if !started {
        return Refused;
      }
      if id in table {
        table := table[id := table[id].(status := Handled, updatedAt := now)];
      } else {
        table := table[id := Row(Handled, now)];
      }
      EndOperation();
      r := Done(());
    }

    method Release(id: Id) returns (r: Reply<()>)
      requires Valid()
      modifies this
      ensures Valid() && unchanged(`active, `closeRequested, `closed) && r.Refused? == Refusing()
      ensures table == if Refusing() then old(table) else Released(old(table), id)
    {
      var started := BeginOperation();
      if !started {
        return Refused;
      }
      if IsProcessing(table, id) {
        table := table - {id};
      }
      EndOperation();
      r := Done(());
    }

    method StatusOf(id: Id) returns (r: Reply<Option<Status>>)
      requires Valid()
      modifies this
      ensures Valid() && unchanged(`table, `active, `closeRequested, `closed)
      ensures r == if Refusing() then Refused else Done(if id in table then Some(table[id].status) else None)
    {
      var started := BeginOperation();
      if !started {
        return Refused;
      }
      r := Done(if id in table then Some(table[id].status) else None);
      EndOperation();
    }

    /** One DELETE of at most a chunk of the rows that may go; the cursor counts them. */
    method DeleteChunk(cutoff: int) returns (rowCount: nat, ghost chunk: set<Id>)
      modifies this`table
      ensures IsChunk(old(table), chunk, rowCount, table, cutoff)
    {
      var prunable := Prunable(table, cutoff);
      var gone: set<Id> := {};
      while |gone| < PRUNE_CHUNK_ROWS && gone != prunable
        invariant gone <= prunable && |gone| <= PRUNE_CHUNK_ROWS
        decreases PRUNE_CHUNK_ROWS - |gone|
      {
        assert prunable - gone != {};
        var id :| id in prunable - gone;
        gone := gone + {id};
      }
      if gone < prunable {
        assert |prunable| == |gone| + |prunable - gone|;
      }
      table := table - gone;
      rowCount, chunk := |gone|, gone;
    }

    /** Deletes chunk after chunk until nothing is left or another thread asks for the close: `requestAfter` is the
        number of chunks that go by before that, if it happens at all. Before chunk `i` the statements of other threads
        turn the table `t` into `between(i)(t)`. */
    method PruneChunks(cutoff: int, requestAfter: Option<nat>, between: nat -> Table -> Table)
      returns (total: nat, ghost chunks: seq<set<Id>>)
      requires !closeRequested && AddsNothingToPrune(between, cutoff)
      modifies this`table, this`closeRequested
      ensures Pruned(old(table), chunks, between, table, total, cutoff)
      ensures !closeRequested ==> Prunable(table, cutoff) == {}
      ensures closeRequested ==> requestAfter.Some? && Within(total, requestAfter.value)
    {
      hide Prunable, Within, Pruned, IsChunk;
      total, chunks := 0, [];
      ghost var before := table;
      NothingPruned(before, between, cutoff);
      NoChunkYet();
      var count: nat := 0;
      while true
        invariant count == |chunks|
        invariant !closeRequested && Pruned(before, chunks, between, table, total, cutoff) && Within(total, count)
        decreases |Prunable(table, cutoff)|
      {
        if requestAfter == Some(count) {
          closeRequested := true;
        }
        if closeRequested {
          return;
        }
        ghost var last := table;
        table := between(count)(table);
        ghost var found := table;
        ghost var chunk;
        var rowCount;
        rowCount, chunk := DeleteChunk(cutoff);
        ChunkPruned(before, chunks, between, last, total, chunk, rowCount, table, cutoff);
        OneMoreChunk(total, rowCount, count);
        chunks := chunks + [chunk];
        if rowCount <= 0 {
          return;
        }
        count, total := count + 1, total + rowCount;
      }
    }

    /** The retention sweep. */
    method PruneHandledBefore(cutoff: int, requestAfter: Option<nat>, between: nat -> Table -> Table)
      returns (total: nat, ghost chunks: seq<set<Id>>)
      requires Valid() && AddsNothingToPrune(between, cutoff)
      modifies this
      ensures Valid() && active == old(active) && Pruned(old(table), chunks, between, table, total, cutoff)
      ensures old(Refusing()) ==> unchanged(`table, `active, `closeRequested, `closed) && chunks == []
      ensures !old(Refusing()) && !closeRequested ==> Prunable(table, cutoff) == {}
      ensures !old(Refusing()) && closeRequested ==>
        requestAfter.Some? && Within(total, requestAfter.value) && closed == (active == 0)
    {
      hide Prunable, Within, Pruned;
      var started := BeginOperation();
      if !started {
        total, chunks := 0, [];
        NothingPruned(table, between, cutoff);
        return;
      }
      total, chunks := PruneChunks(cutoff, requestAfter, between);
      EndOperation();
    }

    /** Closes at once when no operation is in flight, and leaves it to the last of them otherwise. */
    method Close() returns (done: bool)
      requires Valid()
      modifies this
      ensures Valid() && unchanged(`table, `active)
      ensures done == closed == (active == 0) && (!done ==> closeRequested)
    {
      if closed {
        return true;
      }
      if active > 0 {
        closeRequested := true;
        return false;
      }
      closed := true;
      return true;
    }
  }

  /** `gone` is as large as one DELETE can be, and it is what `table` misses. */
  ghost predicate IsChunk(before: Table, gone: set<Id>, rowCount: nat, table: Table, cutoff: int) {
    var prunable := Prunable(before, cutoff);
    && gone <= prunable && table == before - gone
    && rowCount == |gone| == if |prunable| <= PRUNE_CHUNK_ROWS then |prunable| else PRUNE_CHUNK_ROWS
  }

  /** What other threads do between two chunks leaves no further row to prune: a row they mark gets the current
      reading of the clock, which the cutoff is behind. */
  ghost predicate AddsNothingToPrune(between: nat -> Table -> Table, cutoff: int) {
    forall i, t :: Prunable(between(i)(t), cutoff) <= Prunable(t, cutoff)
  }

  /** The table after these chunks, each deleted from what the other threads had left by then. */
  function Replay(before: Table, chunks: seq<set<Id>>, between: nat -> Table -> Table): Table
    decreases |chunks|
  {
    if chunks == [] then before
    else
      var n := |chunks| - 1;
      between(n)(Replay(before, chunks[..n], between)) - chunks[n]
  }

  function GoneBy(chunks: seq<set<Id>>): set<Id>
    decreases |chunks|
  {
    if chunks == [] then {} else GoneBy(chunks[..|chunks| - 1]) + chunks[|chunks| - 1]
  }

  /** Every chunk is as large as one DELETE can be at its time. */
  ghost predicate AreChunks(before: Table, chunks: seq<set<Id>>, between: nat -> Table -> Table, cutoff: int)
    decreases |chunks|
  {
    chunks == [] ||
    var n := |chunks| - 1;
    && AreChunks(before, chunks[..n], between, cutoff)
    && IsChunk(between(n)(Replay(before, chunks[..n], between)), chunks[n], |chunks[n]|, Replay(before, chunks, between), cutoff)
  }

  /** `chunks` are in all `total` rows, each once, which the sweep could delete from the start, and without which the other
      threads have made `before` into `table`. */
  ghost predicate Pruned(before: Table, chunks: seq<set<Id>>, between: nat -> Table -> Table, table: Table, total: nat,
                         cutoff: int) {
    && AreChunks(before, chunks, between, cutoff)
    && table == Replay(before, chunks, between) && total == |GoneBy(chunks)|
    && GoneBy(chunks) <= Prunable(before, cutoff) && Prunable(table, cutoff) <= Prunable(before, cutoff) - GoneBy(chunks)
  }

  lemma NothingPruned(before: Table, between: nat -> Table -> Table, cutoff: int)
    ensures Pruned(before, [], between, before, 0, cutoff)
  {
  }

  /** A chunk makes what can be pruned smaller, and is empty only when nothing is left to prune. */
  lemma ChunkPruned(before: Table, chunks: seq<set<Id>>, between: nat -> Table -> Table, table: Table, total: nat,
                    chunk: set<Id>, rowCount: nat, table': Table, cutoff: int)
    requires AddsNothingToPrune(between, cutoff) && Pruned(before, chunks, between, table, total, cutoff)
    requires IsChunk(between(|chunks|)(table), chunk, rowCount, table', cutoff)
    ensures Pruned(before, chunks + [chunk], between, table', total + rowCount, cutoff)
    ensures rowCount <= PRUNE_CHUNK_ROWS
    ensures rowCount > 0 ==> |Prunable(table', cutoff)| < |Prunable(table, cutoff)|
    ensures rowCount == 0 ==> Prunable(table', cutoff) == {}
  {
    var all, found := chunks + [chunk], between(|chunks|)(table);
    assert all[..|chunks|] == chunks && all[|chunks|] == chunk;
    assert Prunable(found, cutoff) <= Prunable(table, cutoff);
    assert AreChunks(before, all, between, cutoff);
    hide Prunable, Replay, AreChunks, AddsNothingToPrune;
    StrictlyFewer(Prunable(table, cutoff), chunk, Prunable(table', cutoff));
  }

  lemma StrictlyFewer(a: set<Id>, chunk: set<Id>, b: set<Id>)
    requires b <= a - chunk && chunk <= a
    ensures chunk != {} ==> |b| < |a|
    ensures |a - chunk| + |chunk| == |a|
  {
    assert a == (a - chunk) + chunk;
    assert a - chunk == b + (a - chunk - b);
  }

  /** Left alone, the sweep deletes what it may delete and nothing else, and all of it unless a close was requested. */
  lemma {:induction false} PrunedAlone(before: Table, chunks: seq<set<Id>>, between: nat -> Table -> Table, table: Table, total: nat,
                    cutoff: int)
    requires Pruned(before, chunks, between, table, total, cutoff) && forall i, t :: between(i)(t) == t
    ensures table == before - GoneBy(chunks)
    ensures Prunable(table, cutoff) == Prunable(before, cutoff) - GoneBy(chunks)
  {
    ReplayedAlone(before, chunks, between);
  }

  lemma {:induction false} ReplayedAlone(before: Table, chunks: seq<set<Id>>, between: nat -> Table -> Table)
    requires forall i, t :: between(i)(t) == t
    ensures Replay(before, chunks, between) == before - GoneBy(chunks)
    decreases |chunks|
  {
    if chunks != [] {
      var n := |chunks| - 1;
      ReplayedAlone(before, chunks[..n], between);
      assert before - GoneBy(chunks[..n]) - chunks[n] == before - (GoneBy(chunks[..n]) + chunks[n]);
    }
  }
}
