/** The usage_events table (src/store/usage_store.rs) and the backfill of missing prices (src/service/usage.rs). */
module UsageStore {
  import opened Wrappers
  import opened Numeric
  import opened UsageModel
  import opened Pricing

  type Id = nat

  /** An event on its way to the table. */
  datatype Event = Event(dedupKey: string, model: string, tokens: UsageTokens, costs: UsageCosts,
                         pricingVersion: string, modelKey: Option<string>)

  /** Stored rows by id; ids are handed out in ascending order from 1. */
  datatype Table = Table(rows: map<Id, Event>, nextId: Id)

  const EMPTY_TABLE := Table(map[], 1)

  ghost predicate ValidTable(t: Table) { t.nextId >= 1 && forall id :: id in t.rows ==> 1 <= id < t.nextId }

  /** The unique constraint on dedup keys. */
  ghost predicate KeysUnique(t: Table) {
    forall a, b :: a in t.rows && b in t.rows && t.rows[a].dedupKey == t.rows[b].dedupKey ==> a == b
  }

  predicate HasKey(t: Table, key: string) { exists id :: id in t.rows && t.rows[id].dedupKey == key }

  // ---- insert_batch ----

  /** `INSERT ... ON CONFLICT (dedup_key) DO NOTHING`: the table and the rows affected. */
  function InsertOne(t: Table, e: Event): (Table, nat) {
    if HasKey(t, e.dedupKey) then (t, 0) else (Table(t.rows[t.nextId := e], t.nextId + 1), 1)
  }

  function InsertAll(t: Table, events: seq<Event>): (Table, nat) {
    if events == [] then (t, 0)
    else
      var (u, n) := InsertAll(t, events[..|events| - 1]);
      var (v, m) := InsertOne(u, events[|events| - 1]);
      (v, n + m)
  }

  /** A batch adds rows without touching stored ones, keeps keys unique, leaves every key of the batch present,
      and adds exactly as many rows as it reports, never more than it was given. */
  lemma {:induction false} InsertAllSound(t: Table, events: seq<Event>)
    requires ValidTable(t) && KeysUnique(t)
    ensures var (u, n) := InsertAll(t, events);
            && ValidTable(u) && KeysUnique(u) && n <= |events| && u.nextId == t.nextId + n
            && (forall id :: id in t.rows ==> id in u.rows && u.rows[id] == t.rows[id])
            && (forall id :: id in u.rows && id !in t.rows ==> t.nextId <= id && u.rows[id] in events)
            && (forall k :: 0 <= k < |events| ==> HasKey(u, events[k].dedupKey))
  {
    hide InsertOne, HasKey, KeysUnique, ValidTable;
    if events == [] {
    } else {
      var front, last := events[..|events| - 1], events[|events| - 1];
      InsertAllSound(t, front);
      InsertOneSound(InsertAll(t, front).0, last);
      assert events == front + [last];
    }
  }

  lemma InsertOneSound(t: Table, e: Event)
    requires ValidTable(t) && KeysUnique(t)
    ensures var (u, n) := InsertOne(t, e);
            && ValidTable(u) && KeysUnique(u) && n <= 1 && u.nextId == t.nextId + n && HasKey(u, e.dedupKey)
            && (forall id :: id in t.rows ==> id in u.rows && u.rows[id] == t.rows[id])
            && (forall id :: id in u.rows && id !in t.rows ==> id == t.nextId && u.rows[id] == e)
            && (forall key :: HasKey(t, key) ==> HasKey(u, key))
  {
    var u := InsertOne(t, e).0;
    if !HasKey(t, e.dedupKey) { assert u.rows[t.nextId].dedupKey == e.dedupKey; }
    forall key | HasKey(t, key)
      ensures HasKey(u, key)
    {
      var id :| id in t.rows && t.rows[id].dedupKey == key;
      assert u.rows[id].dedupKey == key;
    }
  }

  /** The k-th event is the first of the batch with its key, and its key was not stored before. */
  ghost predicate FirstOfItsKey(t: Table, events: seq<Event>, k: nat) {
    && k < |events| && !HasKey(t, events[k].dedupKey)
    && forall j :: 0 <= j < k ==> events[j].dedupKey != events[k].dedupKey
  }

  /** Of several events with one key the first is the one stored. */
  lemma {:induction false} FirstOneIsStored(t: Table, events: seq<Event>, id: Id)
    requires ValidTable(t) && KeysUnique(t) && id in InsertAll(t, events).0.rows && id !in t.rows
    ensures exists k: nat :: FirstOfItsKey(t, events, k) && InsertAll(t, events).0.rows[id] == events[k]
  {
    hide KeysUnique, ValidTable, HasKey;
    assert events != [];
    var front, last := events[..|events| - 1], events[|events| - 1];
    var u := InsertAll(t, front).0;
    InsertAllSound(t, front);
    InsertOneSound(u, last);
    assert events == front + [last];
    if id in u.rows {
      FirstOneIsStored(t, front, id);
      var k: nat :| FirstOfItsKey(t, front, k) && u.rows[id] == front[k];
      assert FirstOfItsKey(t, events, k);
    } else {
      if HasKey(t, last.dedupKey) { KeysStay(t, front, last.dedupKey); }
      assert FirstOfItsKey(t, events, |front|);
    }
  }

  lemma KeysStay(t: Table, events: seq<Event>, key: string)
    requires ValidTable(t) && KeysUnique(t) && HasKey(t, key)
    ensures HasKey(InsertAll(t, events).0, key)
  {
    hide ValidTable, KeysUnique, InsertAll;
    InsertAllSound(t, events);
    var id :| id in t.rows && t.rows[id].dedupKey == key;
    assert InsertAll(t, events).0.rows[id].dedupKey == key;
  }

  // ---- unpriced_events_after and apply_pricing_updates ----

  predicate Unpriced(t: Table, id: Id) { id in t.rows && !t.rows[id].costs.complete }

  predicate AllUnpriced(rows: map<Id, Event>, ids: seq<Id>) {
    forall k :: 0 <= k < |ids| ==> ids[k] in rows && !rows[ids[k]].costs.complete
  }

  /** Up to `limit` unpriced ids from `from` on, in ascending order. */
  function UnpricedFrom(t: Table, from: Id, limit: nat): seq<Id>
    decreases if from < t.nextId then t.nextId - from else 0
  {
    if from >= t.nextId || limit == 0 then []
    else if Unpriced(t, from) then [from] + UnpricedFrom(t, from + 1, limit - 1)
    else UnpricedFrom(t, from + 1, limit)
  }

  datatype PricingUpdate = PricingUpdate(id: Id, costs: UsageCosts, pricingVersion: string, modelKey: string)

  function UpdateRow(row: Event, u: PricingUpdate): Event {
    row.(costs := u.costs, pricingVersion := u.pricingVersion, modelKey := Some(u.modelKey))
  }

  /** `UPDATE ... WHERE id = ? AND cost_complete = 0`, one update after the other: rows and rows affected. */
  function ApplyUpdates(rows: map<Id, Event>, updates: seq<PricingUpdate>): (map<Id, Event>, nat) {
    if updates == [] then (rows, 0)
    else
      var (earlier, n) := ApplyUpdates(rows, updates[..|updates| - 1]);
      var u := updates[|updates| - 1];
      if u.id in earlier && !earlier[u.id].costs.complete then (earlier[u.id := UpdateRow(earlier[u.id], u)], n + 1)
      else (earlier, n)
  }

  // ---- the backfill ----

  predicate Priceable(engine: PricingEngine, row: Event)
    requires engine.Valid()
  {
    var priced := Price(engine, row.model, row.tokens);
    priced.costs.complete && priced.modelKey.Some?
  }

  function UpdateFor(engine: PricingEngine, id: Id, row: Event): PricingUpdate
    requires engine.Valid() && Priceable(engine, row)
  {
    var priced := Price(engine, row.model, row.tokens);
    PricingUpdate(id, priced.costs, priced.pricingVersion, priced.modelKey.value)
  }

  /** What the backfill makes of a row. */
  function Backfilled(engine: PricingEngine, row: Event): Event
    requires engine.Valid()
  {
    if !row.costs.complete && Priceable(engine, row) then UpdateRow(row, UpdateFor(engine, 0, row)) else row
  }

  /** `filter_map` over the queried events. */
  function UpdatesFor(engine: PricingEngine, rows: map<Id, Event>, ids: seq<Id>): seq<PricingUpdate>
    requires engine.Valid() && AllUnpriced(rows, ids)
  {
    if ids == [] then []
    else
      var earlier, id := UpdatesFor(engine, rows, ids[..|ids| - 1]), ids[|ids| - 1];
      if Priceable(engine, rows[id]) then earlier + [UpdateFor(engine, id, rows[id])] else earlier
  }

  /** The rows with an id in (from, upTo] that the backfill flips. */
  function Flipped(engine: PricingEngine, t: Table, from: Id, upTo: Id): nat
    requires engine.Valid()
    decreases upTo
  {
    if upTo <= from then 0
    else Flipped(engine, t, from, upTo - 1) + (if Unpriced(t, upTo) && Priceable(engine, t.rows[upTo]) then 1 else 0)
  }

  ghost function RowsAfter(engine: PricingEngine, rows: map<Id, Event>, ids: seq<Id>): map<Id, Event>
    requires engine.Valid()
  {
    map id | id in rows :: if id in ids then Backfilled(engine, rows[id]) else rows[id]
  }

  ghost predicate AscendingIds(ids: seq<Id>) { forall i, j :: 0 <= i < j < |ids| ==> ids[i] < ids[j] }

  /** Applying the updates of unpriced rows turns exactly those rows into their backfilled form, one flip each. */
  lemma {:induction false} UpdatesBackfill(engine: PricingEngine, rows: map<Id, Event>, ids: seq<Id>)
    requires engine.Valid() && AscendingIds(ids) && AllUnpriced(rows, ids)
    ensures ApplyUpdates(rows, UpdatesFor(engine, rows, ids)).0 == RowsAfter(engine, rows, ids)
    ensures ApplyUpdates(rows, UpdatesFor(engine, rows, ids)).1 == |UpdatesFor(engine, rows, ids)|
  {
    hide Priceable, Price, UpdateFor, UpdateRow, ApplyUpdates, Backfilled, RowsAfter;
    if ids == [] {
      ApplyNone(rows);
      RowsAfterNone(engine, rows);
    } else {
      var front, id := ids[..|ids| - 1], ids[|ids| - 1];
      UpdatesBackfill(engine, rows, front);
      RowsAfterOneMore(engine, rows, ids);
      BackfillOne(engine, rows, id);
      if Priceable(engine, rows[id]) {
        ApplyOneMore(rows, UpdatesFor(engine, rows, front), UpdateFor(engine, id, rows[id]));
      }
    }
  }

  lemma RowsAfterNone(engine: PricingEngine, rows: map<Id, Event>)
    requires engine.Valid()
    ensures RowsAfter(engine, rows, []) == rows
  {}

  lemma RowsAfterOneMore(engine: PricingEngine, rows: map<Id, Event>, ids: seq<Id>)
    requires engine.Valid() && ids != [] && AscendingIds(ids) && AllUnpriced(rows, ids)
    ensures var front, id := ids[..|ids| - 1], ids[|ids| - 1];
            && AllUnpriced(rows, front) && AscendingIds(front) && id in rows && !rows[id].costs.complete
            && id in RowsAfter(engine, rows, front) && RowsAfter(engine, rows, front)[id] == rows[id]
            && RowsAfter(engine, rows, ids) == RowsAfter(engine, rows, front)[id := Backfilled(engine, rows[id])]
  {
    hide Backfilled;
    var front, id := ids[..|ids| - 1], ids[|ids| - 1];
    assert id !in front && ids == front + [id];
  }

  lemma ApplyNone(rows: map<Id, Event>)
    ensures ApplyUpdates(rows, []) == (rows, 0)
  {}

  lemma ApplyOneMore(rows: map<Id, Event>, updates: seq<PricingUpdate>, u: PricingUpdate)
    ensures var (earlier, n) := ApplyUpdates(rows, updates);
            ApplyUpdates(rows, updates + [u])
              == if u.id in earlier && !earlier[u.id].costs.complete then (earlier[u.id := UpdateRow(earlier[u.id], u)], n + 1)
                 else (earlier, n)
  {
    assert (updates + [u])[..|updates|] == updates;
  }

  lemma BackfillOne(engine: PricingEngine, rows: map<Id, Event>, id: Id)
    requires engine.Valid() && id in rows && !rows[id].costs.complete
    ensures Backfilled(engine, rows[id])
         == if Priceable(engine, rows[id]) then UpdateRow(rows[id], UpdateFor(engine, id, rows[id])) else rows[id]
    ensures Priceable(engine, rows[id]) ==> UpdateFor(engine, id, rows[id]).id == id
  {
    hide Priceable, Price;
  }

  /** The query returns unpriced ids in ascending order, and misses none up to its last one;
      when it comes back short, none are left at all. */
  lemma {:induction false} UnpricedFromSound(t: Table, from: Id, limit: nat)
    ensures var ids := UnpricedFrom(t, from, limit);
            && AscendingIds(ids) && |ids| <= limit
            && (forall k :: 0 <= k < |ids| ==> from <= ids[k] < t.nextId && Unpriced(t, ids[k]))
            && (limit > 0 ==> forall id :: from <= id < t.nextId && Unpriced(t, id) && id !in ids ==> ids != [] && ids[|ids| - 1] < id)
    decreases if from < t.nextId then t.nextId - from else 0
  {
    hide Unpriced;
    if from < t.nextId && limit > 0 {
      if Unpriced(t, from) {
        UnpricedFromSound(t, from + 1, limit - 1);
        var rest := UnpricedFrom(t, from + 1, limit - 1);
        assert UnpricedFrom(t, from, limit) == [from] + rest;
      } else {
        UnpricedFromSound(t, from + 1, limit);
      }
    }
  }

  /** Every unpriced row with an id in (from, last of ids] is among ids. */
  ghost predicate NoneMissed(t: Table, from: Id, ids: seq<Id>) {
    ids != [] ==> forall id :: from < id <= ids[|ids| - 1] && Unpriced(t, id) ==> id in ids
  }

  /** Counting flips over the id range of one query is counting its updates. */
  lemma {:induction false} FlippedByQuery(engine: PricingEngine, t: Table, from: Id, ids: seq<Id>)
    requires engine.Valid() && AscendingIds(ids) && AllUnpriced(t.rows, ids)
    requires forall k :: 0 <= k < |ids| ==> from < ids[k]
    requires NoneMissed(t, from, ids)
    ensures ids != [] ==> Flipped(engine, t, from, ids[|ids| - 1]) == |UpdatesFor(engine, t.rows, ids)|
    decreases |ids|
  {
    hide Price, Priceable, UpdateFor, Flipped, Unpriced, NoneMissed;
    if ids != [] {
      var front, last := ids[..|ids| - 1], ids[|ids| - 1];
      NoneMissedBefore(t, from, ids);
      FlippedByQuery(engine, t, from, front);
      NothingBetween(engine, t, from, if front == [] then from else front[|front| - 1], last - 1);
      LastFlip(engine, t, from, last);
      NoFlips(engine, t, from);
    }
  }

  lemma NoneMissedBefore(t: Table, from: Id, ids: seq<Id>)
    requires ids != [] && AscendingIds(ids) && NoneMissed(t, from, ids) && AllUnpriced(t.rows, ids)
    requires forall k :: 0 <= k < |ids| ==> from < ids[k]
    ensures var front, last := ids[..|ids| - 1], ids[|ids| - 1];
            && NoneMissed(t, from, front) && AllUnpriced(t.rows, front) && Unpriced(t, last)
            && forall id :: (if front == [] then from else front[|front| - 1]) < id < last ==> !Unpriced(t, id)
  {
    assert Unpriced(t, ids[|ids| - 1]);
    var front, last := ids[..|ids| - 1], ids[|ids| - 1];
    assert front != [] ==> from < front[|front| - 1] < last;
    hide Unpriced, AllUnpriced, AscendingIds;
    forall id | front != [] && from < id <= front[|front| - 1] && Unpriced(t, id)
      ensures id in front
    {
      InFront(ids, id);
    }
    forall id | (if front == [] then from else front[|front| - 1]) < id < last
      ensures !Unpriced(t, id)
    {
      NotAmong(ids, id);
    }
  }

  lemma InFront(ids: seq<Id>, id: Id)
    requires ids != [] && id in ids && id != ids[|ids| - 1]
    ensures id in ids[..|ids| - 1]
  {
    assert ids == ids[..|ids| - 1] + [ids[|ids| - 1]];
  }

  lemma NotAmong(ids: seq<Id>, id: Id)
    requires ids != [] && AscendingIds(ids) && id < ids[|ids| - 1] && (|ids| > 1 ==> ids[|ids| - 2] < id)
    ensures id !in ids
  {
    assert forall k :: 0 <= k < |ids| - 1 ==> ids[k] <= ids[|ids| - 2];
  }

  lemma NoFlips(engine: PricingEngine, t: Table, from: Id)
    requires engine.Valid()
    ensures Flipped(engine, t, from, from) == 0
  {}

  lemma LastFlip(engine: PricingEngine, t: Table, from: Id, last: Id)
    requires engine.Valid() && from < last && Unpriced(t, last)
    ensures Flipped(engine, t, from, last) == Flipped(engine, t, from, last - 1) + if Priceable(engine, t.rows[last]) then 1 else 0
  {}

  lemma {:induction false} NothingBetween(engine: PricingEngine, t: Table, from: Id, a: Id, b: Id)
    requires engine.Valid() && from <= a <= b
    requires forall id :: a < id <= b ==> !Unpriced(t, id)
    ensures Flipped(engine, t, from, b) == Flipped(engine, t, from, a)
    decreases b
  {
    hide Priceable;
    if a < b { NothingBetween(engine, t, from, a, b - 1); }
  }

  lemma {:induction false} FlippedAdds(engine: PricingEngine, t: Table, a: Id, b: Id, c: Id)
    requires engine.Valid() && a <= b <= c
    ensures Flipped(engine, t, a, c) == Flipped(engine, t, a, b) + Flipped(engine, t, b, c)
    decreases c
  {
    hide Priceable;
    if b < c { FlippedAdds(engine, t, a, b, c - 1); }
  }

  lemma {:induction false} FlippedSame(engine: PricingEngine, t: Table, u: Table, a: Id, b: Id)
    requires engine.Valid()
    requires forall id :: a < id <= b ==> (id in t.rows <==> id in u.rows) && (id in t.rows ==> t.rows[id] == u.rows[id])
    ensures Flipped(engine, t, a, b) == Flipped(engine, u, a, b)
    decreases b
  {
    hide Priceable;
    if a < b { FlippedSame(engine, t, u, a, b - 1); }
  }

  /** Halfway: ids up to the cursor are backfilled, later ones untouched. */
  ghost predicate BackfilledUpTo(engine: PricingEngine, before: Table, now: Table, cursor: Id)
    requires engine.Valid()
  {
    && now.nextId == before.nextId && now.rows.Keys == before.rows.Keys
    && forall id :: id in before.rows ==> now.rows[id] == if id <= cursor then Backfilled(engine, before.rows[id]) else before.rows[id]
  }

  /** No unpriced row beyond the cursor: the rest is its own backfilled form already. */
  lemma BackfillDone(engine: PricingEngine, before: Table, now: Table, cursor: Id)
    requires engine.Valid() && ValidTable(before) && BackfilledUpTo(engine, before, now, cursor) && cursor <= now.nextId
    requires forall id :: cursor < id < now.nextId ==> !Unpriced(now, id)
    ensures BackfilledUpTo(engine, before, now, now.nextId)
    ensures Flipped(engine, before, 0, now.nextId) == Flipped(engine, before, 0, cursor)
  {
    hide Price, Priceable, UpdateRow, UpdateFor;
    forall id | cursor < id <= now.nextId
      ensures !Unpriced(before, id)
    {
      assert id < now.nextId ==> !Unpriced(now, id);
      assert id in before.rows ==> now.rows[id] == before.rows[id];
    }
    NothingBetween(engine, before, 0, cursor, now.nextId);
    forall id | id in before.rows
      ensures now.rows[id] == Backfilled(engine, before.rows[id])
    {
      assert id <= cursor || !Unpriced(before, id);
    }
  }

  /** One round moves the cursor forward past everything it has dealt with. */
  lemma BackfillAdvances(engine: PricingEngine, before: Table, now: Table, cursor: Id, ids: seq<Id>)
    requires engine.Valid() && ValidTable(before) && BackfilledUpTo(engine, before, now, cursor)
    requires ids != [] && AscendingIds(ids) && AllUnpriced(now.rows, ids)
    requires (forall k :: 0 <= k < |ids| ==> cursor < ids[k]) && NoneMissed(now, cursor, ids)
    ensures var (rows, n) := ApplyUpdates(now.rows, UpdatesFor(engine, now.rows, ids));
            var last := ids[|ids| - 1];
            && BackfilledUpTo(engine, before, Table(rows, now.nextId), last)
            && Flipped(engine, before, 0, last) == Flipped(engine, before, 0, cursor) + n
  {
    hide Price, Priceable;
    var last := ids[|ids| - 1];
    UpdatesBackfill(engine, now.rows, ids);
    forall id | id in now.rows && id in ids
      ensures cursor < id <= last
    {
      var k :| 0 <= k < |ids| && ids[k] == id;
    }
    FlippedByQuery(engine, now, cursor, ids);
    FlippedSame(engine, before, now, cursor, last);
    FlippedAdds(engine, before, 0, cursor, last);
  }

  /** After a backfill no row is left that could be priced completely under a matching rule. */
  lemma NothingPriceableLeft(engine: PricingEngine, before: Table, after: Table, id: Id)
    requires engine.Valid() && BackfilledUpTo(engine, before, after, after.nextId) && ValidTable(before)
    requires id in after.rows && !after.rows[id].costs.complete
    ensures var row, price := after.rows[id], Price(engine, after.rows[id].model, after.rows[id].tokens);
            (!price.costs.complete || price.modelKey.None?) && row == before.rows[id]
  {
    hide Price;
  }

  /** What a backfill makes of every row: the price of the given list for rows without a complete one, where it is
      complete under a matching rule; every other row stays. */
  lemma BackfillSays(engine: PricingEngine, before: Table, after: Table, id: Id)
    requires engine.Valid() && BackfilledUpTo(engine, before, after, after.nextId) && ValidTable(before)
    ensures after.rows.Keys == before.rows.Keys
    ensures id in before.rows ==>
              var row := before.rows[id]; var price := Price(engine, row.model, row.tokens);
              after.rows[id] == if !row.costs.complete && price.costs.complete && price.modelKey.Some?
                                then row.(costs := price.costs, pricingVersion := price.pricingVersion, modelKey := price.modelKey)
                                else row
  {
    hide Price;
  }

  /** The flips counted are the rows whose price was incomplete before and is complete after. */
  lemma {:induction false} FlipsAreCompletions(engine: PricingEngine, before: Table, upTo: Id)
    requires engine.Valid()
    ensures Flipped(engine, before, 0, upTo)
         == |set id | id in before.rows && 0 < id <= upTo && !before.rows[id].costs.complete && Backfilled(engine, before.rows[id]).costs.complete|
    decreases upTo
  {
    hide Price;
    var done := set id | id in before.rows && 0 < id <= upTo && !before.rows[id].costs.complete && Backfilled(engine, before.rows[id]).costs.complete;
    if upTo == 0 {
      assert done == {};
    } else {
      FlipsAreCompletions(engine, before, upTo - 1);
      var less := set id | id in before.rows && 0 < id <= upTo - 1 && !before.rows[id].costs.complete && Backfilled(engine, before.rows[id]).costs.complete;
      if Unpriced(before, upTo) { FlipIsCompletion(engine, before.rows[upTo]); }
      hide Backfilled, Priceable;
      assert done == if Unpriced(before, upTo) && Priceable(engine, before.rows[upTo]) then less + {upTo} else less;
    }
  }

  lemma FlipIsCompletion(engine: PricingEngine, row: Event)
    requires engine.Valid() && !row.costs.complete
    ensures Priceable(engine, row) <==> Backfilled(engine, row).costs.complete
  {
    hide Price;
  }

  const PRICING_BACKFILL_BATCH_SIZE: nat := 250

  class Store {
    var table: Table

    ghost predicate Valid()
      reads this
    {
      ValidTable(table) && KeysUnique(table)
    }

    constructor ()
      ensures Valid() && table == EMPTY_TABLE
    {
      table := EMPTY_TABLE;
    }

    method InsertBatch(events: seq<Event>) returns (inserted: nat, duplicates: nat)
      requires Valid()
      modifies this
      ensures Valid()
      ensures (table, inserted) == InsertAll(old(table), events) && inserted + duplicates == |events|
    {
      inserted := 0;
      for i := 0 to |events|
        invariant (table, inserted) == InsertAll(old(table), events[..i])
      {
        assert events[..i + 1][..i] == events[..i];
        var (t, n) := InsertOne(table, events[i]);
        table, inserted := t, inserted + n;
      }
      assert events[..|events|] == events;
      InsertAllSound(old(table), events);
      duplicates := |events| - inserted;
    }

    method ApplyPricingUpdates(updates: seq<PricingUpdate>) returns (updated: nat)
      modifies this
      ensures (table.rows, updated) == ApplyUpdates(old(table.rows), updates) && table.nextId == old(table.nextId)
    {
      updated := 0;
      for i := 0 to |updates|
        invariant (table.rows, updated) == ApplyUpdates(old(table.rows), updates[..i]) && table.nextId == old(table.nextId)
      {
        assert updates[..i + 1][..i] == updates[..i];
        var u := updates[i];
        if u.id in table.rows && !table.rows[u.id].costs.complete {
          table := table.(rows := table.rows[u.id := UpdateRow(table.rows[u.id], u)]);
          updated := updated + 1;
        }
      }
      assert updates[..|updates|] == updates;
    }

    /** The loop over all unpriced rows. It ends, flips each unpriced row that has a complete price under a matching
        rule exactly once, changes nothing else, and returns the number of flips. */
    method BackfillUnpriced(engine: PricingEngine) returns (updated: nat)
      requires engine.Valid() && ValidTable(table)
      modifies this
      ensures BackfilledUpTo(engine, old(table), table, table.nextId)
      ensures updated == |set id | id in old(table.rows) && !old(table.rows)[id].costs.complete && table.rows[id].costs.complete|
    {
      hide Price, Priceable, Backfilled;
      var afterId: Id := 0;
      updated := 0;
      while true
        invariant BackfilledUpTo(engine, old(table), table, afterId)
        invariant afterId <= table.nextId && updated == Flipped(engine, old(table), 0, afterId)
        decreases table.nextId - afterId
      {
        var ids := UnpricedFrom(table, afterId + 1, PRICING_BACKFILL_BATCH_SIZE);
        UnpricedFromSound(table, afterId + 1, PRICING_BACKFILL_BATCH_SIZE);
        if ids == [] {
          BackfillDone(engine, old(table), table, afterId);
          FlipsAreCompletions(engine, old(table), table.nextId);
          assert (set id | id in old(table.rows) && !old(table.rows)[id].costs.complete && table.rows[id].costs.complete)
              == set id | id in old(table).rows && 0 < id <= table.nextId && !old(table).rows[id].costs.complete
                          && Backfilled(engine, old(table).rows[id]).costs.complete;
          return;
        }
        BackfillAdvances(engine, old(table), table, afterId, ids);
        var n := ApplyPricingUpdates(UpdatesFor(engine, table.rows, ids));
        afterId := ids[|ids| - 1];
        updated := updated + n;
      }
    }
  }
}
