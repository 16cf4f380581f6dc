/** From a parsed response to the table (src/service/usage.rs): the bounded queue, the batching writer with its
    retries, price refreshes, the backfill and retention, interleaved in any order. */
module UsageIngestion {
  import opened Wrappers
  import opened UsageModel
  import opened Decimal
  import opened Pricing
  import opened UsageParsing
  import opened UsageStore

  const QUEUE_CAPACITY: nat := 4096
  const WRITE_BATCH_SIZE: nat := 128
  const LAST_RETRY: nat := 3

  type Engine = e: PricingEngine | e.Valid() witness PricingEngine(map[], [], map[], "")

  // ---- events ----

  /** What the gateway knows of an attempt when its response has ended. */
  datatype Attempt = Attempt(attemptId: string, upstreamRequestId: Option<string>, requestModel: string)

  /** What identifies a response, best identifier first. */
  datatype Identity = Message(id: string) | UpstreamRequest(id: string) | OwnAttempt(id: string)

  function IdentityOf(attempt: Attempt, parsed: ParsedUsage): Identity {
    if parsed.messageId.Some? then Message(parsed.messageId.value)
    else if attempt.upstreamRequestId.Some? then UpstreamRequest(attempt.upstreamRequestId.value)
    else OwnAttempt(attempt.attemptId)
  }

  const MESSAGE_PREFIX := "anthropic:message:"
  const REQUEST_PREFIX := "anthropic:request:"
  const ATTEMPT_PREFIX := "attempt:"

  function DedupKey(i: Identity): string {
    match i
    case Message(id) => MESSAGE_PREFIX + id
    case UpstreamRequest(id) => REQUEST_PREFIX + id
    case OwnAttempt(id) => ATTEMPT_PREFIX + id
  }

  /** Keys collide only for the same response: no identifier of one kind can pass for one of another. */
  lemma DedupKeyIsInjective(a: Identity, b: Identity)
    requires DedupKey(a) == DedupKey(b)
    ensures a == b
  {
    var key := DedupKey(a);
    assert MESSAGE_PREFIX[10] == 'm' && REQUEST_PREFIX[10] == 'r' && |MESSAGE_PREFIX| == |REQUEST_PREFIX| == 18;
    assert MESSAGE_PREFIX[1] == 'n' && REQUEST_PREFIX[1] == 'n' && ATTEMPT_PREFIX[1] == 't' && |ATTEMPT_PREFIX| == 8;
    assert key == DedupKey(a) && key == DedupKey(b);
    assert key[1] == if a.OwnAttempt? then 't' else 'n';
    assert key[1] == if b.OwnAttempt? then 't' else 'n';
    if !a.OwnAttempt? {
      assert key[10] == if a.Message? then 'm' else 'r';
      assert key[10] == if b.Message? then 'm' else 'r';
      assert key[18..] == a.id && key[18..] == b.id;
    } else {
      assert key[8..] == a.id && key[8..] == b.id;
    }
  }

  function ModelOf(attempt: Attempt, parsed: ParsedUsage): string {
    if parsed.model.Some? && Trim(parsed.model.value) != "" then parsed.model.value else attempt.requestModel
  }

  function Priced(e: Event, engine: Engine): Event {
    var p := Price(engine, e.model, e.tokens);
    e.(costs := p.costs, pricingVersion := p.pricingVersion, modelKey := p.modelKey)
  }

  function EventOf(engine: Engine, attempt: Attempt, parsed: ParsedUsage): Event {
    var model := ModelOf(attempt, parsed);
    var p := Price(engine, model, parsed.tokens);
    Event(DedupKey(IdentityOf(attempt, parsed)), model, parsed.tokens, p.costs, p.pricingVersion, p.modelKey)
  }

  /** The writer prices an incomplete event again, and keeps the new price only when it is complete. */
  function Reprice(engine: Engine, e: Event): Event {
    if !e.costs.complete && Priced(e, engine).costs.complete then Priced(e, engine) else e
  }

  function RepriceAll(engine: Engine, batch: seq<Event>): seq<Event> {
    seq(|batch|, i requires 0 <= i < |batch| => Reprice(engine, batch[i]))
  }

  // ---- the machine ----

  datatype Phase = Collecting | Writing(failures: nat)

  datatype Counters = Counters(observed: nat, queueDropped: nat, persisted: nat, duplicate: nat, writeFailed: nat)

  const ZERO_COUNTERS := Counters(0, 0, 0, 0, 0)

  /** `engines`: every price list ever in force, the current one last. `accepted`, `written`, `settled`: the keys that
      entered the queue, that left the writer in a committed batch, and that left the writer at all, in order.
      `deleted` counts the rows removed by retention. */
  datatype Ingest = Ingest(
    queue: seq<Event>, batch: seq<Event>, phase: Phase, table: Table, counters: Counters,
    engines: seq<Engine>, accepted: seq<string>, written: seq<string>, settled: seq<string>, deleted: nat)

  function Start(engine: Engine): Ingest {
    Ingest([], [], Collecting, EMPTY_TABLE, ZERO_COUNTERS, [engine], [], [], [], 0)
  }

  datatype Step =
    | Submit(attempt: Attempt, parsed: ParsedUsage, writerAlive: bool)
    | Receive                                 // the writer takes an event from the queue
    | CloseBatch                              // the batch is full, or its delay is over
    | InsertCommits
    | InsertFails
    | RefreshPricing(engine: Engine)
    | Backfill(id: Id, which: nat)            // one UPDATE of a backfill that runs with the price list `which`
    | Retire(id: Id)                          // one row of a retention DELETE

  function KeysOf(events: seq<Event>): seq<string> { seq(|events|, i requires 0 <= i < |events| => events[i].dedupKey) }

  function SubmitEvent(s: Ingest, e: Event, writerAlive: bool): Ingest {
    var c := s.counters.(observed := s.counters.observed + 1);
    if writerAlive && |s.queue| < QUEUE_CAPACITY then s.(queue := s.queue + [e], accepted := s.accepted + [e.dedupKey], counters := c)
    else s.(counters := c.(queueDropped := c.queueDropped + 1))
  }

  function Commit(s: Ingest): Ingest {
    var (t, inserted) := InsertAll(s.table, s.batch);
    var c := s.counters;
    s.(table := t, batch := [], phase := Collecting,
       counters := c.(persisted := c.persisted + inserted,
                      duplicate := c.duplicate + (if inserted <= |s.batch| then |s.batch| - inserted else 0)),
       written := s.written + KeysOf(s.batch), settled := s.settled + KeysOf(s.batch))
  }

  function GiveUp(s: Ingest): Ingest {
    s.(batch := [], phase := Collecting,
       counters := s.counters.(writeFailed := s.counters.writeFailed + |s.batch|), settled := s.settled + KeysOf(s.batch))
  }

  function BackfillRow(engine: Engine, t: Table, id: Id): Table {
    if id in t.rows then t.(rows := t.rows[id := Backfilled(engine, t.rows[id])]) else t
  }

  /** A step that is not enabled leaves the state alone. */
  function Apply(s: Ingest, step: Step): Ingest
    requires s.engines != []
  {
    match step
    case Submit(attempt, parsed, alive) =>
      if parsed.hasUsage then SubmitEvent(s, EventOf(s.engines[|s.engines| - 1], attempt, parsed), alive) else s
    case Receive =>
      if s.phase.Collecting? && s.queue != [] && |s.batch| < WRITE_BATCH_SIZE
      then s.(queue := s.queue[1..], batch := s.batch + [s.queue[0]]) else s
    case CloseBatch =>
      if s.phase.Collecting? && s.batch != []
      then s.(batch := RepriceAll(s.engines[|s.engines| - 1], s.batch), phase := Writing(0)) else s
    case InsertCommits => if s.phase.Writing? then Commit(s) else s
    case InsertFails =>
      if s.phase.Collecting? then s
      else if s.phase.failures < LAST_RETRY then s.(phase := Writing(s.phase.failures + 1))
      else GiveUp(s)
    case RefreshPricing(engine) => s.(engines := s.engines + [engine])
    case Backfill(id, which) => if which < |s.engines| then s.(table := BackfillRow(s.engines[which], s.table, id)) else s
    case Retire(id) =>
      if id in s.table.rows then s.(table := s.table.(rows := s.table.rows - {id}), deleted := s.deleted + 1) else s
  }

  function RunFrom(start: Ingest, steps: seq<Step>): (s: Ingest)
    requires start.engines != []
    ensures s.engines != []
  {
    if steps == [] then start else Apply(RunFrom(start, steps[..|steps| - 1]), steps[|steps| - 1])
  }

  function Run(engine: Engine, steps: seq<Step>): Ingest { RunFrom(Start(engine), steps) }

  // ---- what a submission and a writer's round do ----

  /** A response with usage is dropped exactly when the writer is gone or 4096 events are waiting. Otherwise one event
      joins the end of the queue: with the parsed tokens, the parsed model unless it is blank, the key made of the best
      identifier, and the price the current list gives. A response without usage does nothing. */
  lemma SubmitQueues(s: Ingest, attempt: Attempt, parsed: ParsedUsage, writerAlive: bool)
    requires s.engines != []
    ensures var t := Apply(s, Submit(attempt, parsed, writerAlive));
            if !parsed.hasUsage then t == s
            else if !writerAlive || |s.queue| >= 4096 then
              t == s.(counters := s.counters.(observed := s.counters.observed + 1, queueDropped := s.counters.queueDropped + 1))
            else
              && |t.queue| == |s.queue| + 1 && t.queue[..|s.queue|] == s.queue
              && t.counters == s.counters.(observed := s.counters.observed + 1) && t.batch == s.batch && t.table == s.table
              && var event, engine := t.queue[|s.queue|], s.engines[|s.engines| - 1];
                 var blank := parsed.model.None? || forall k :: 0 <= k < |parsed.model.value| ==> IsWhitespace(parsed.model.value[k]);
                 && event.tokens == parsed.tokens
                 && event.model == (if blank then attempt.requestModel else parsed.model.value)
                 && event.dedupKey == (if parsed.messageId.Some? then "anthropic:message:" + parsed.messageId.value
                                       else if attempt.upstreamRequestId.Some? then "anthropic:request:" + attempt.upstreamRequestId.value
                                       else "attempt:" + attempt.attemptId)
                 && PricedUsage(event.costs, event.pricingVersion, event.modelKey) == Price(engine, event.model, event.tokens)
  {
    hide Price;
    if parsed.model.Some? { BlankTrims(parsed.model.value); }
    hide Trim;
  }

  /** The background steps: a refreshed list becomes the current one; a backfill update completes one row by the list it
      runs with, where that prices it completely under a matching rule; retention removes one row. */
  lemma BackgroundSteps(s: Ingest, engine: Engine, id: Id, which: nat)
    requires s.engines != [] && which < |s.engines|
    ensures Apply(s, RefreshPricing(engine)) == s.(engines := s.engines + [engine])
    ensures Apply(s, Backfill(id, which)) == s.(table := Apply(s, Backfill(id, which)).table)
    ensures var rows, after := s.table.rows, Apply(s, Backfill(id, which)).table.rows;
            && after.Keys == rows.Keys && (forall other :: other in rows && other != id ==> after[other] == rows[other])
            && (id in rows ==> var price := Price(s.engines[which], rows[id].model, rows[id].tokens);
                  after[id] == if !rows[id].costs.complete && price.costs.complete && price.modelKey.Some?
                               then rows[id].(costs := price.costs, pricingVersion := price.pricingVersion, modelKey := price.modelKey)
                               else rows[id])
    ensures id in s.table.rows ==> Apply(s, Retire(id)) == s.(table := s.table.(rows := s.table.rows - {id}), deleted := s.deleted + 1)
  {
    hide Price;
  }

  // ---- where every event is ----

  /** Nothing is lost or reordered between the queue and the writer, and the counters add up. */
  ghost predicate Accounted(s: Ingest) {
    && s.accepted == s.settled + KeysOf(s.batch) + KeysOf(s.queue)
    && s.counters.observed == s.counters.queueDropped + |s.accepted|
    && |s.settled| == s.counters.persisted + s.counters.duplicate + s.counters.writeFailed
    && |s.written| == s.counters.persisted + s.counters.duplicate
    && |s.queue| <= QUEUE_CAPACITY && |s.batch| <= WRITE_BATCH_SIZE
    && (s.phase.Writing? ==> s.batch != [] && s.phase.failures <= LAST_RETRY)
  }

  ghost function StoredKeys(t: Table): set<string> { set id | id in t.rows :: t.rows[id].dedupKey }

  ghost function SetOf(keys: seq<string>): set<string> { set k | k in keys }

  /** The table holds one row per key, each counted once; while nothing was retired, the keys are those written. */
  ghost predicate Stored(s: Ingest) {
    && ValidTable(s.table) && KeysUnique(s.table)
    && s.counters.persisted == |s.table.rows| + s.deleted
    && StoredKeys(s.table) <= SetOf(s.written)
    && (s.deleted == 0 ==> StoredKeys(s.table) == SetOf(s.written))
  }

  lemma KeysOfAppend(a: seq<Event>, b: seq<Event>)
    ensures KeysOf(a + b) == KeysOf(a) + KeysOf(b)
  {}

  lemma InsertOneStores(t: Table, e: Event)
    requires ValidTable(t) && KeysUnique(t)
    ensures var (u, n) := InsertOne(t, e); |u.rows| == |t.rows| + n && StoredKeys(u) == StoredKeys(t) + {e.dedupKey}
  {
    var u := InsertOne(t, e).0;
    if HasKey(t, e.dedupKey) {
      var id :| id in t.rows && t.rows[id].dedupKey == e.dedupKey;
      assert e.dedupKey in StoredKeys(t);
    } else {
      assert u.rows == t.rows[t.nextId := e] && t.nextId !in t.rows;
      assert u.rows.Keys == t.rows.Keys + {t.nextId};
      forall key
        ensures key in StoredKeys(u) <==> key in StoredKeys(t) + {e.dedupKey}
      {
        if key == e.dedupKey { assert u.rows[t.nextId].dedupKey == key; }
        if key in StoredKeys(t) {
          var id :| id in t.rows && t.rows[id].dedupKey == key;
          assert u.rows[id].dedupKey == key;
        }
      }
    }
  }

  lemma {:induction false} InsertAllStores(t: Table, events: seq<Event>)
    requires ValidTable(t) && KeysUnique(t)
    ensures var (u, n) := InsertAll(t, events);
            |u.rows| == |t.rows| + n && StoredKeys(u) == StoredKeys(t) + SetOf(KeysOf(events))
  {
    hide InsertOne, StoredKeys, KeysUnique, ValidTable, SetOf, KeysOf;
    if events == [] {
      NoKeys();
    } else {
      var front, last := events[..|events| - 1], events[|events| - 1];
      InsertAllStores(t, front);
      InsertAllSound(t, front);
      InsertOneStores(InsertAll(t, front).0, last);
      OneMoreKey(events);
    }
  }

  lemma NoKeys()
    ensures KeysOf([]) == [] && SetOf([]) == {}
  {}

  lemma OneMoreKey(events: seq<Event>)
    requires events != []
    ensures var front, last := events[..|events| - 1], events[|events| - 1];
            SetOf(KeysOf(events)) == SetOf(KeysOf(front)) + {last.dedupKey}
  {
    var front, last := events[..|events| - 1], events[|events| - 1];
    assert KeysOf(events) == KeysOf(front) + [last.dedupKey];
  }

  lemma CommitKeeps(s: Ingest)
    requires Accounted(s) && Stored(s) && s.phase.Writing?
    ensures Accounted(Commit(s)) && Stored(Commit(s))
  {
    hide InsertAll, ValidTable, KeysUnique, StoredKeys;
    InsertAllSound(s.table, s.batch);
    InsertAllStores(s.table, s.batch);
    assert SetOf(s.written + KeysOf(s.batch)) == SetOf(s.written) + SetOf(KeysOf(s.batch));
  }

  lemma BackfillRowKeeps(engine: Engine, t: Table, id: Id)
    requires ValidTable(t) && KeysUnique(t)
    ensures var u := BackfillRow(engine, t, id);
            ValidTable(u) && KeysUnique(u) && |u.rows| == |t.rows| && StoredKeys(u) == StoredKeys(t)
  {
    var u := BackfillRow(engine, t, id);
    if id in t.rows {
      BackfilledKeepsKey(engine, t.rows[id]);
      hide Backfilled;
      assert u.rows.Keys == t.rows.Keys;
      assert forall i :: i in t.rows ==> u.rows[i].dedupKey == t.rows[i].dedupKey;
    }
  }

  lemma BackfilledKeepsKey(engine: Engine, row: Event)
    ensures var b := Backfilled(engine, row); b.dedupKey == row.dedupKey && b.model == row.model && b.tokens == row.tokens
  {
    hide Price;
  }

  lemma RetireKeeps(s: Ingest, id: Id)
    requires Stored(s) && id in s.table.rows
    ensures Stored(Apply(s, Retire(id)))
    requires s.engines != []
  {
    var t := Apply(s, Retire(id)).table;
    assert t.rows.Keys == s.table.rows.Keys - {id};
    assert StoredKeys(t) <= StoredKeys(s.table);
  }

  lemma SubmitKeeps(s: Ingest, e: Event, writerAlive: bool)
    requires Accounted(s) && Stored(s)
    ensures Accounted(SubmitEvent(s, e, writerAlive)) && Stored(SubmitEvent(s, e, writerAlive))
  {
    hide ValidTable, KeysUnique, StoredKeys;
    KeysOfAppend(s.queue, [e]);
  }

  lemma ReceiveKeeps(s: Ingest)
    requires s.engines != [] && Accounted(s) && Stored(s)
    ensures Accounted(Apply(s, Receive)) && Stored(Apply(s, Receive))
  {
    hide ValidTable, KeysUnique, StoredKeys, KeysOf;
    if s.queue != [] {
      assert s.queue == [s.queue[0]] + s.queue[1..];
      KeysOfAppend([s.queue[0]], s.queue[1..]);
      KeysOfAppend(s.batch, [s.queue[0]]);
    }
  }

  lemma CloseBatchKeeps(s: Ingest)
    requires s.engines != [] && Accounted(s) && Stored(s)
    ensures Accounted(Apply(s, CloseBatch)) && Stored(Apply(s, CloseBatch))
  {
    hide ValidTable, KeysUnique, StoredKeys, Reprice, KeysOf;
    RepriceKeepsKeys(s.engines[|s.engines| - 1], s.batch);
  }

  lemma InsertFailsKeeps(s: Ingest)
    requires s.engines != [] && Accounted(s) && Stored(s)
    ensures Accounted(Apply(s, InsertFails)) && Stored(Apply(s, InsertFails))
  {
    hide ValidTable, KeysUnique, StoredKeys;
  }

  lemma StepKeeps(s: Ingest, step: Step)
    requires s.engines != [] && Accounted(s) && Stored(s)
    ensures Accounted(Apply(s, step)) && Stored(Apply(s, step))
  {
    hide ValidTable, KeysUnique, StoredKeys, SetOf, KeysOf, EventOf, SubmitEvent, BackfillRow, Commit, GiveUp, Reprice;
    match step
    case Submit(attempt, parsed, alive) =>
      SubmitKeeps(s, EventOf(s.engines[|s.engines| - 1], attempt, parsed), alive);
    case Receive => ReceiveKeeps(s);
    case CloseBatch => CloseBatchKeeps(s);
    case InsertCommits => if s.phase.Writing? { CommitKeeps(s); }
    case InsertFails => InsertFailsKeeps(s);
    case RefreshPricing(_) =>
    case Backfill(id, which) => if which < |s.engines| { BackfillRowKeeps(s.engines[which], s.table, id); }
    case Retire(id) => if id in s.table.rows { RetireKeeps(s, id); }
  }

  lemma RepriceKeepsKeys(engine: Engine, batch: seq<Event>)
    ensures KeysOf(RepriceAll(engine, batch)) == KeysOf(batch)
  {
    hide Price;
  }

  /** On every run: each observed event was dropped at the queue, waits in the queue or in the batch, or has been
      settled by the writer as persisted, duplicate or failed, in the order the queue accepted them; the table never
      has two rows for one key, and holds exactly the persisted events that retention has not removed. */
  lemma {:induction false} RunConserves(engine: Engine, steps: seq<Step>)
    ensures var s := Run(engine, steps);
            && Accounted(s) && Stored(s)
            && s.counters.observed == s.counters.queueDropped + |s.queue| + |s.batch|
                                      + s.counters.persisted + s.counters.duplicate + s.counters.writeFailed
  {
    assert StoredKeys(EMPTY_TABLE) == {} == SetOf([]);
    RunFromKeeps(Start(engine), steps);
  }

  /** However often a response was seen and however the batches fell: with nothing retired, the number of persisted
      events is the number of distinct keys in committed batches. */
  lemma OneRowPerWrittenKey(engine: Engine, steps: seq<Step>)
    requires Run(engine, steps).deleted == 0
    ensures Run(engine, steps).counters.persisted == |SetOf(Run(engine, steps).written)|
  {
    hide Run, Apply;
    RunConserves(engine, steps);
    KeysMatchRows(Run(engine, steps).table);
  }

  lemma {:induction false} KeysMatchRows(t: Table)
    requires KeysUnique(t)
    ensures |StoredKeys(t)| == |t.rows|
    decreases |t.rows|
  {
    if t.rows == map[] {
      assert StoredKeys(t) == {};
    } else {
      var id :| id in t.rows;
      var fewer := Table(t.rows - {id}, t.nextId);
      OneRowLess(t, fewer, id);
      KeysMatchRows(fewer);
    }
  }

  lemma OneRowLess(t: Table, fewer: Table, id: Id)
    requires KeysUnique(t) && id in t.rows && fewer.rows == t.rows - {id}
    ensures KeysUnique(fewer)
    ensures |StoredKeys(t)| == |StoredKeys(fewer)| + 1 && |t.rows| == |fewer.rows| + 1
  {
    var key := t.rows[id].dedupKey;
    KeyGone(t, fewer, id);
    KeysKept(t, fewer, id);
    hide KeysUnique, StoredKeys;
    assert t.rows.Keys == fewer.rows.Keys + {id};
    assert |fewer.rows.Keys + {id}| == |fewer.rows.Keys| + 1;
    assert |StoredKeys(fewer) + {key}| == |StoredKeys(fewer)| + 1;
  }

  lemma KeyGone(t: Table, fewer: Table, id: Id)
    requires KeysUnique(t) && id in t.rows && fewer.rows == t.rows - {id}
    ensures t.rows[id].dedupKey !in StoredKeys(fewer) && KeysUnique(fewer)
  {}

  lemma KeysKept(t: Table, fewer: Table, id: Id)
    requires id in t.rows && fewer.rows == t.rows - {id}
    ensures StoredKeys(t) == StoredKeys(fewer) + {t.rows[id].dedupKey}
  {
    forall k | k in StoredKeys(t) && k != t.rows[id].dedupKey
      ensures k in StoredKeys(fewer)
    {
      var i :| i in t.rows && t.rows[i].dedupKey == k;
      assert i in fewer.rows;
    }
  }

  // ---- where every price comes from ----

  /** The event carries exactly what one of the price lists makes of its model and tokens. */
  ghost predicate PricedBySome(engines: seq<Engine>, e: Event) {
    exists i :: 0 <= i < |engines| && Priced(e, engines[i]) == e
  }

  ghost predicate AllPriced(s: Ingest) {
    && s.engines != []
    && (forall k :: 0 <= k < |s.queue| ==> PricedBySome(s.engines, s.queue[k]))
    && (forall k :: 0 <= k < |s.batch| ==> PricedBySome(s.engines, s.batch[k]))
    && (forall id :: id in s.table.rows ==> PricedBySome(s.engines, s.table.rows[id]))
  }

  lemma PricedIsPriced(e: Event, engine: Engine)
    ensures var p := Priced(e, engine); Priced(p, engine) == p && p.dedupKey == e.dedupKey && p.model == e.model && p.tokens == e.tokens
  {
    hide Price;
  }

  lemma MoreEngines(engines: seq<Engine>, engine: Engine, e: Event)
    requires PricedBySome(engines, e)
    ensures PricedBySome(engines + [engine], e)
  {
    hide Priced;
    var i :| 0 <= i < |engines| && Priced(e, engines[i]) == e;
    assert (engines + [engine])[i] == engines[i];
  }

  lemma PricedByThis(engines: seq<Engine>, i: nat, e: Event)
    requires i < |engines|
    ensures PricedBySome(engines, Priced(e, engines[i]))
  {
    PricedIsPriced(e, engines[i]);
  }

  lemma EventOfIsPriced(engine: Engine, attempt: Attempt, parsed: ParsedUsage)
    ensures var e := EventOf(engine, attempt, parsed); Priced(e, engine) == e
  {
    hide Price;
  }

  lemma RepricePriced(engines: seq<Engine>, i: nat, e: Event)
    requires i < |engines| && PricedBySome(engines, e)
    ensures PricedBySome(engines, Reprice(engines[i], e))
  {
    hide Priced;
    PricedByThis(engines, i, e);
  }

  lemma BackfilledPriced(engines: seq<Engine>, i: nat, e: Event)
    requires i < |engines| && PricedBySome(engines, e)
    ensures PricedBySome(engines, Backfilled(engines[i], e))
  {
    hide Price;
    if Backfilled(engines[i], e) != e {
      assert Backfilled(engines[i], e) == Priced(e, engines[i]);
      PricedByThis(engines, i, e);
    }
  }

  lemma CommitPriced(s: Ingest)
    requires AllPriced(s) && ValidTable(s.table) && KeysUnique(s.table)
    ensures AllPriced(Commit(s))
  {
    hide PricedBySome, InsertAll;
    InsertAllSound(s.table, s.batch);
  }

  lemma StepPriced(s: Ingest, step: Step)
    requires AllPriced(s) && ValidTable(s.table) && KeysUnique(s.table)
    ensures AllPriced(Apply(s, step))
  {
    hide PricedBySome, ValidTable, KeysUnique, EventOf, Reprice, Backfilled, Commit, KeysOf;
    match step
    case Submit(attempt, parsed, _) =>
      var last := |s.engines| - 1;
      var e := EventOf(s.engines[last], attempt, parsed);
      EventOfIsPriced(s.engines[last], attempt, parsed);
      PricedByThis(s.engines, last, e);
    case Receive =>
    case CloseBatch =>
      forall k | 0 <= k < |s.batch|
        ensures PricedBySome(s.engines, Reprice(s.engines[|s.engines| - 1], s.batch[k]))
      {
        RepricePriced(s.engines, |s.engines| - 1, s.batch[k]);
      }
    case InsertCommits => CommitPriced(s);
    case InsertFails =>
    case RefreshPricing(engine) =>
      forall e | PricedBySome(s.engines, e)
        ensures PricedBySome(s.engines + [engine], e)
      {
        MoreEngines(s.engines, engine, e);
      }
    case Backfill(id, which) =>
      if which < |s.engines| && id in s.table.rows { BackfilledPriced(s.engines, which, s.table.rows[id]); }
    case Retire(_) =>
  }

  /** On every run, each event in the queue, the batch or the table carries costs, version and rule key that one and
      the same price list gave for its own model and tokens, whatever was refreshed, repriced or backfilled meanwhile. */
  lemma {:induction false} RunPrices(engine: Engine, steps: seq<Step>)
    ensures AllPriced(Run(engine, steps))
  {
    hide Apply, PricedBySome;
    if steps != [] {
      RunPrices(engine, steps[..|steps| - 1]);
      RunConserves(engine, steps[..|steps| - 1]);
      StepPriced(Run(engine, steps[..|steps| - 1]), steps[|steps| - 1]);
    }
  }

  // ---- the life of a row ----

  /** What can become of a stored row: nothing, or its price gets complete. */
  ghost predicate SameOrCompleted(before: Event, after: Event) {
    && after.dedupKey == before.dedupKey && after.model == before.model && after.tokens == before.tokens
    && (after == before || (!before.costs.complete && after.costs.complete))
  }

  lemma BackfilledCompletes(engine: Engine, row: Event)
    ensures SameOrCompleted(row, Backfilled(engine, row))
  {
    hide Price;
  }

  lemma StepRow(s: Ingest, step: Step, id: Id)
    requires s.engines != [] && ValidTable(s.table) && KeysUnique(s.table)
    ensures s.table.nextId <= Apply(s, step).table.nextId
    ensures id < s.table.nextId && id in Apply(s, step).table.rows
            ==> id in s.table.rows && SameOrCompleted(s.table.rows[id], Apply(s, step).table.rows[id])
  {
    hide ValidTable, KeysUnique, EventOf, Reprice, Backfilled, InsertAll, KeysOf;
    match step
    case InsertCommits =>
      InsertAllSound(s.table, s.batch);
      var n: nat := InsertAll(s.table, s.batch).1;
    case Backfill(_, which) =>
      if which < |s.engines| && id in s.table.rows { BackfilledCompletes(s.engines[which], s.table.rows[id]); }
    case _ =>
  }

  /** A row keeps its id, key, model and tokens until retention removes it, and an id is never used again; its price
      changes at most once, from incomplete to complete. */
  lemma {:induction false} RowsEvolve(engine: Engine, steps: seq<Step>, from: nat, id: Id)
    requires from <= |steps| && id < Run(engine, steps[..from]).table.nextId && id in Run(engine, steps).table.rows
    ensures id in Run(engine, steps[..from]).table.rows
    ensures SameOrCompleted(Run(engine, steps[..from]).table.rows[id], Run(engine, steps).table.rows[id])
    decreases |steps|
  {
    hide Apply;
    if from == |steps| {
      assert steps[..from] == steps;
    } else {
      var front := steps[..|steps| - 1];
      assert front[..from] == steps[..from];
      RunConserves(engine, front);
      NextIdGrows(engine, front, from);
      StepRow(Run(engine, front), steps[|steps| - 1], id);
      RowsEvolve(engine, front, from, id);
    }
  }

  lemma {:induction false} NextIdGrows(engine: Engine, steps: seq<Step>, from: nat)
    requires from <= |steps|
    ensures Run(engine, steps[..from]).table.nextId <= Run(engine, steps).table.nextId
  {
    hide Apply;
    if from == |steps| {
      assert steps[..from] == steps;
    } else {
      var front := steps[..|steps| - 1];
      assert front[..from] == steps[..from];
      NextIdGrows(engine, front, from);
      RunConserves(engine, front);
      StepRow(Run(engine, front), steps[|steps| - 1], 0);
    }
  }

  // ---- the service as the source writes it ----

  /** The number of failed inserts before the first successful one. */
  function FailuresBefore(outcomes: seq<bool>): nat {
    if outcomes == [] || outcomes[0] then 0 else 1 + FailuresBefore(outcomes[1..])
  }

  /** How many events a round takes: those that come in time, up to a full batch. */
  function Taken(queued: nat, arrivals: nat): nat {
    var available := if arrivals <= queued then arrivals else queued;
    if available <= WRITE_BATCH_SIZE then available else WRITE_BATCH_SIZE
  }

  /** The least of what waits, what comes in time and 128. */
  lemma TakenIsTheLeast(queued: nat, arrivals: nat)
    ensures Taken(queued, arrivals) in {queued, arrivals, 128}
    ensures Taken(queued, arrivals) <= queued && Taken(queued, arrivals) <= arrivals && Taken(queued, arrivals) <= 128
  {}

  /** The position of the first success among the outcomes, or their number. */
  lemma {:induction false} FailuresComeFirst(outcomes: seq<bool>)
    ensures var f := FailuresBefore(outcomes);
            f <= |outcomes| && (f < |outcomes| ==> outcomes[f]) && forall k :: 0 <= k < f ==> !outcomes[k]
  {
    if outcomes != [] && !outcomes[0] {
      FailuresComeFirst(outcomes[1..]);
      assert forall k :: 0 < k < |outcomes| ==> outcomes[k] == outcomes[1..][k - 1];
    }
  }

  function Repeat(step: Step, n: nat): seq<Step> { seq(n, _ => step) }

  /** One round of the writer: `taken` events received, the batch closed, `failures` failed inserts, then a commit
      unless the last retry failed too. */
  function RoundSteps(taken: nat, failures: nat): seq<Step> {
    Repeat(Receive, taken) + [CloseBatch] + AttemptSteps(failures)
  }

  function AttemptSteps(failures: nat): seq<Step> {
    Repeat(InsertFails, failures) + if failures <= LAST_RETRY then [InsertCommits] else []
  }

  lemma {:induction false} RunFromKeeps(start: Ingest, steps: seq<Step>)
    requires start.engines != [] && Accounted(start) && Stored(start)
    ensures Accounted(RunFrom(start, steps)) && Stored(RunFrom(start, steps))
  {
    hide Apply, Accounted, Stored;
    if steps != [] {
      RunFromKeeps(start, steps[..|steps| - 1]);
      StepKeeps(RunFrom(start, steps[..|steps| - 1]), steps[|steps| - 1]);
    }
  }

  lemma NoSteps(start: Ingest)
    requires start.engines != []
    ensures RunFrom(start, []) == start
  {}

  /** What the writer's steps make of a state given field by field. */
  lemma WriterSteps(s: Ingest)
    requires s.engines != []
    ensures s.phase.Collecting? && s.queue != [] && |s.batch| < WRITE_BATCH_SIZE
            ==> Apply(s, Receive) == s.(queue := s.queue[1..], batch := s.batch + [s.queue[0]])
    ensures s.phase.Collecting? && s.batch != []
            ==> Apply(s, CloseBatch) == s.(batch := RepriceAll(s.engines[|s.engines| - 1], s.batch), phase := Writing(0))
    ensures s.phase.Writing? ==> Apply(s, InsertCommits) == Commit(s)
    ensures s.phase.Writing? ==> Apply(s, InsertFails) == if s.phase.failures < LAST_RETRY then s.(phase := Writing(s.phase.failures + 1)) else GiveUp(s)
  {}

  lemma OneMore(step: Step, n: nat)
    ensures Repeat(step, 0) == [] && Repeat(step, n + 1) == Repeat(step, n) + [step]
  {}

  lemma MoreAttempts(start: Ingest, before: seq<Step>, n: nat)
    requires start.engines != []
    ensures RunFrom(start, before + Repeat(InsertFails, n + 1)) == Apply(RunFrom(start, before + Repeat(InsertFails, n)), InsertFails)
    ensures RunFrom(start, before + AttemptSteps(n))
         == if n <= LAST_RETRY then Apply(RunFrom(start, before + Repeat(InsertFails, n)), InsertCommits)
            else RunFrom(start, before + Repeat(InsertFails, n))
  {
    hide Apply, RunFrom, Repeat;
    var failed := before + Repeat(InsertFails, n);
    OneMore(InsertFails, n);
    OneMoreStep(start, failed, InsertFails);
    OneMoreStep(start, failed, InsertCommits);
    assert before + Repeat(InsertFails, n + 1) == failed + [InsertFails];
    assert before + AttemptSteps(n) == if n <= LAST_RETRY then failed + [InsertCommits] else failed;
  }

  lemma StoredStoreIsValid(s: Ingest, start: Ingest, steps: seq<Step>)
    requires start.engines != [] && Accounted(start) && Stored(start) && s == RunFrom(start, steps)
    ensures ValidTable(s.table) && KeysUnique(s.table)
  {
    RunFromKeeps(start, steps);
  }

  lemma OneMoreStep(start: Ingest, steps: seq<Step>, step: Step)
    requires start.engines != []
    ensures RunFrom(start, steps + [step]) == Apply(RunFrom(start, steps), step)
  {
    hide Apply;
    assert (steps + [step])[..|steps|] == steps;
  }

  lemma {:induction false} ReceivesTake(s: Ingest, k: nat)
    requires s.engines != [] && s.phase.Collecting? && s.batch == [] && k <= |s.queue| && k <= 128
    ensures RunFrom(s, Repeat(Receive, k)) == s.(queue := s.queue[k..], batch := s.queue[..k])
  {
    hide Apply, RunFrom, Repeat;
    if k == 0 {
      NoSteps(s);
      OneMore(Receive, 0);
    } else {
      ReceivesTake(s, k - 1);
      OneMore(Receive, k - 1);
      OneMoreStep(s, Repeat(Receive, k - 1), Receive);
      WriterSteps(s.(queue := s.queue[k - 1..], batch := s.queue[..k - 1]));
      assert s.queue[k - 1..][1..] == s.queue[k..] && s.queue[..k - 1] + [s.queue[k - 1]] == s.queue[..k];
    }
  }

  lemma {:induction false} FailuresCount(s: Ingest, before: seq<Step>, f: nat)
    requires s.engines != [] && RunFrom(s, before).phase == Writing(0) && f <= 4
    ensures var closed, t := RunFrom(s, before), RunFrom(s, before + Repeat(InsertFails, f));
            t == if f < 4 then closed.(phase := Writing(f)) else GiveUp(closed)
  {
    hide Apply, RunFrom, Repeat, KeysOf;
    if f == 0 {
      OneMore(InsertFails, 0);
      assert before + [] == before;
    } else {
      FailuresCount(s, before, f - 1);
      MoreAttempts(s, before, f - 1);
      WriterSteps(RunFrom(s, before).(phase := Writing(f - 1)));
    }
  }

  /** What a round leaves of an event of the queue: itself, or itself with a complete price of the current list. */
  ghost predicate WrittenAs(engine: Engine, event: Event, row: Event) {
    && row.dedupKey == event.dedupKey && row.model == event.model && row.tokens == event.tokens
    && var price := Price(engine, event.model, event.tokens);
       if !event.costs.complete && price.costs.complete
       then row.costs == price.costs && row.pricingVersion == price.pricingVersion && row.modelKey == price.modelKey
       else row == event
  }

  lemma RepriceWrites(engine: Engine, batch: seq<Event>, i: nat)
    requires i < |batch|
    ensures WrittenAs(engine, batch[i], RepriceAll(engine, batch)[i])
  {
    hide Price;
  }

  /** A round takes the first events of the queue. With at most three failed inserts each of their keys is then in the
      table, stored rows are untouched, every new row is one of the events, and each event counts as persisted or
      duplicate; after a fourth failure all of them count as failed and the table is as before. */
  lemma RoundWrites(s: Ingest, k: nat, failures: nat)
    requires s.engines != [] && Accounted(s) && Stored(s) && s.phase.Collecting? && s.batch == []
    requires 1 <= k <= |s.queue| && k <= 128 && failures <= 4
    ensures var t := RunFrom(s, RoundSteps(k, failures)); var c, d := s.counters, t.counters;
            && t.queue == s.queue[k..] && t.batch == [] && t.phase.Collecting?
            && d.observed == c.observed && d.queueDropped == c.queueDropped
            && if failures <= 3 then
                 && d.persisted + d.duplicate == c.persisted + c.duplicate + k && d.writeFailed == c.writeFailed
                 && d.persisted - c.persisted == |t.table.rows| - |s.table.rows|
                 && (forall i :: 0 <= i < k ==> HasKey(t.table, s.queue[i].dedupKey))
                 && (forall id :: id in s.table.rows ==> id in t.table.rows && t.table.rows[id] == s.table.rows[id])
                 && (forall id :: id in t.table.rows && id !in s.table.rows
                       ==> exists i :: 0 <= i < k && WrittenAs(s.engines[|s.engines| - 1], s.queue[i], t.table.rows[id]))
               else t.table == s.table && d == c.(writeFailed := c.writeFailed + k)
  {
    hide Apply, RunFrom, Commit, GiveUp, KeysOf, Price, RepriceAll, WrittenAs, HasKey, Accounted, Stored;
    RoundEnds(s, k, failures);
    var engine := s.engines[|s.engines| - 1];
    assert ValidTable(s.table) && KeysUnique(s.table) by { StoredIsValid(s); }
    CommitWrites(engine, s.queue[..k], Closed(s, k, failures));
    GivesUp(Closed(s, k, failures));
  }

  lemma StoredIsValid(s: Ingest)
    requires Stored(s)
    ensures ValidTable(s.table) && KeysUnique(s.table)
  {}

  /** The round's batch before its last insert. */
  function Closed(s: Ingest, k: nat, failures: nat): Ingest
    requires s.engines != [] && k <= |s.queue|
  {
    s.(queue := s.queue[k..], batch := RepriceAll(s.engines[|s.engines| - 1], s.queue[..k]), phase := Writing(failures))
  }

  lemma RoundEnds(s: Ingest, k: nat, failures: nat)
    requires s.engines != [] && s.phase.Collecting? && s.batch == [] && 1 <= k <= |s.queue| && k <= 128 && failures <= 4
    ensures RunFrom(s, RoundSteps(k, failures)) == if failures <= 3 then Commit(Closed(s, k, failures)) else GiveUp(Closed(s, k, failures))
  {
    hide Apply, RunFrom, Repeat, KeysOf, RepriceAll, Commit;
    var receives := Repeat(Receive, k);
    ReceivesTake(s, k);
    OneMoreStep(s, receives, CloseBatch);
    WriterSteps(s.(queue := s.queue[k..], batch := s.queue[..k]));
    FailuresCount(s, receives + [CloseBatch], failures);
    MoreAttempts(s, receives + [CloseBatch], failures);
    assert RoundSteps(k, failures) == receives + [CloseBatch] + AttemptSteps(failures);
    if failures <= 3 { WriterSteps(Closed(s, k, failures)); }
  }

  lemma GivesUp(s: Ingest)
    ensures var t := GiveUp(s);
            && t.queue == s.queue && t.batch == [] && t.phase.Collecting? && t.table == s.table
            && t.counters == s.counters.(writeFailed := s.counters.writeFailed + |s.batch|)
  {
    hide KeysOf;
  }

  lemma CommitWrites(engine: Engine, events: seq<Event>, s: Ingest)
    requires ValidTable(s.table) && KeysUnique(s.table) && s.batch == RepriceAll(engine, events)
    ensures var t := Commit(s); var c, d := s.counters, t.counters;
            && t.queue == s.queue && t.batch == [] && t.phase.Collecting? && |s.batch| == |events|
            && d == c.(persisted := d.persisted, duplicate := d.duplicate)
            && d.persisted + d.duplicate == c.persisted + c.duplicate + |events|
            && d.persisted - c.persisted == |t.table.rows| - |s.table.rows|
            && (forall i :: 0 <= i < |events| ==> HasKey(t.table, events[i].dedupKey))
            && (forall id :: id in s.table.rows ==> id in t.table.rows && t.table.rows[id] == s.table.rows[id])
            && (forall id :: id in t.table.rows && id !in s.table.rows
                  ==> exists i :: 0 <= i < |events| && WrittenAs(engine, events[i], t.table.rows[id]))
  {
    hide KeysOf, Reprice, WrittenAs, InsertAll, HasKey, ValidTable, KeysUnique;
    var batch, t := s.batch, Commit(s);
    InsertAllSound(s.table, batch);
    InsertAllStores(s.table, batch);
    forall i | 0 <= i < |events|
      ensures HasKey(t.table, events[i].dedupKey) && WrittenAs(engine, events[i], batch[i])
    {
      RepriceWrites(engine, events, i);
      WrittenKeepsKey(engine, events[i], batch[i]);
    }
    forall id | id in t.table.rows && id !in s.table.rows
      ensures exists i :: 0 <= i < |events| && WrittenAs(engine, events[i], t.table.rows[id])
    {
      var i :| 0 <= i < |batch| && batch[i] == t.table.rows[id];
      assert WrittenAs(engine, events[i], t.table.rows[id]);
    }
  }

  lemma WrittenKeepsKey(engine: Engine, event: Event, row: Event)
    requires WrittenAs(engine, event, row)
    ensures row.dedupKey == event.dedupKey
  {}

  class UsageService {
    const store: Store
    var queue: seq<Event>
    var pricing: Engine
    var counters: Counters
    ghost var engines: seq<Engine>
    ghost var accepted: seq<string>
    ghost var written: seq<string>
    ghost var settled: seq<string>
    ghost var deleted: nat

    /** The machine's state, with the writer's batch and phase: local variables of its loop. */
    ghost function View(batch: seq<Event>, phase: Phase): Ingest
      reads this, store
    {
      Ingest(queue, batch, phase, store.table, counters, engines, accepted, written, settled, deleted)
    }

    ghost predicate Valid()
      reads this, store
    {
      && engines != [] && engines[|engines| - 1] == pricing
      && Accounted(View([], Collecting)) && Stored(View([], Collecting))
    }

    constructor (engine: Engine)
      ensures Valid() && fresh(store) && View([], Collecting) == Start(engine)
    {
      store := new Store();
      queue, pricing, counters := [], engine, ZERO_COUNTERS;
      engines, accepted, written, settled, deleted := [engine], [], [], [], 0;
      new;
      assert Run(engine, []) == Start(engine);
      RunConserves(engine, []);
    }

    method Submit(attempt: Attempt, parsed: ParsedUsage, writerAlive: bool)
      requires Valid()
      modifies this
      ensures Valid()
      ensures View([], Collecting) == Apply(old(View([], Collecting)), Step.Submit(attempt, parsed, writerAlive))
    {
      hide Stored, Accounted, Price;
      if !parsed.hasUsage { return; }
      StepKeeps(View([], Collecting), Step.Submit(attempt, parsed, writerAlive));
      var event := EventOf(pricing, attempt, parsed);
      counters := counters.(observed := counters.observed + 1);
      if writerAlive && |queue| < QUEUE_CAPACITY {
        queue := queue + [event];
        accepted := accepted + [event.dedupKey];
      } else {
        counters := counters.(queueDropped := counters.queueDropped + 1);
      }
    }

    method RefreshPricing(engine: Engine)
      requires Valid()
      modifies this
      ensures Valid()
      ensures View([], Collecting) == Apply(old(View([], Collecting)), Step.RefreshPricing(engine))
    {
      hide Stored, Accounted;
      StepKeeps(View([], Collecting), Step.RefreshPricing(engine));
      pricing := engine;
      engines := engines + [engine];
    }

    /** One turn of the writer's loop; `arrivals` events come in before the batch delay is over, and
        `outcomes` says which of the four inserts would succeed. */
    method WriteRound(arrivals: nat, outcomes: seq<bool>)
      requires Valid() && queue != [] && arrivals >= 1 && |outcomes| == LAST_RETRY + 1
      modifies this, store
      ensures Valid()
      ensures View([], Collecting)
           == RunFrom(old(View([], Collecting)), RoundSteps(Taken(|old(queue)|, arrivals), FailuresBefore(outcomes)))
    {
      hide Stored, Accounted, Price, Reprice, Taken, FailuresBefore, Repeat, AttemptSteps, RunFrom;
      ghost var start := View([], Collecting);
      ghost var receives := Repeat(Receive, Taken(|queue|, arrivals));
      var batch := CollectBatch(arrivals);
      batch := RepriceBatch(batch);
      OneMoreStep(start, receives, CloseBatch);
      InsertWithRetries(batch, outcomes, start, receives + [CloseBatch]);
    }

    /** `recv` for the first event, then further ones until the batch is full or the delay is over. */
    method CollectBatch(arrivals: nat) returns (batch: seq<Event>)
      requires engines != [] && queue != [] && arrivals >= 1
      modifies this`queue
      ensures batch != []
      ensures View(batch, Collecting) == RunFrom(old(View([], Collecting)), Repeat(Receive, Taken(|old(queue)|, arrivals)))
    {
      hide Apply, RunFrom, Repeat;
      ghost var start := View([], Collecting);
      NoSteps(start);
      OneMoreStep(start, [], Receive);
      OneMore(Receive, 0);
      WriterSteps(start);
      batch := [queue[0]];
      queue := queue[1..];
      while |batch| < WRITE_BATCH_SIZE && |batch| < arrivals && queue != []
        invariant 1 <= |batch| <= WRITE_BATCH_SIZE && |batch| <= arrivals && |batch| + |queue| == |old(queue)|
        invariant View(batch, Collecting) == RunFrom(start, Repeat(Receive, |batch|))
        decreases |queue|
      {
        OneMoreStep(start, Repeat(Receive, |batch|), Receive);
        OneMore(Receive, |batch|);
        WriterSteps(View(batch, Collecting));
        batch, queue := batch + [queue[0]], queue[1..];
      }
    }

    /** The loop over the batch, which replaces prices in place. */
    method RepriceBatch(events: seq<Event>) returns (batch: seq<Event>)
      ensures batch == RepriceAll(pricing, events)
    {
      hide Price;
      batch := events;
      for i := 0 to |batch|
        invariant |batch| == |events|
        invariant forall k :: 0 <= k < |batch| ==> batch[k] == if k < i then Reprice(pricing, events[k]) else events[k]
      {
        var event := batch[i];
        if !event.costs.complete {
          var priced := Price(pricing, event.model, event.tokens);
          if priced.costs.complete {
            event := event.(costs := priced.costs, pricingVersion := priced.pricingVersion, modelKey := priced.modelKey);
            batch := batch[i := event];
          }
        }
      }
    }

    /** Up to four inserts of the same batch. */
    method InsertWithRetries(batch: seq<Event>, outcomes: seq<bool>, ghost start: Ingest, ghost before: seq<Step>)
      requires start.engines != [] && Accounted(start) && Stored(start)
      requires View(batch, Writing(0)) == RunFrom(start, before) && engines != [] && engines[|engines| - 1] == pricing
      requires |outcomes| == LAST_RETRY + 1
      modifies this, store
      ensures engines == old(engines) && pricing == old(pricing)
      ensures View([], Collecting) == RunFrom(start, before + AttemptSteps(FailuresBefore(outcomes)))
      ensures Accounted(View([], Collecting)) && Stored(View([], Collecting))
    {
      hide Stored, Accounted, InsertAll, Apply, RunFrom, Repeat, AttemptSteps, KeysOf;
      var retry := 0;
      assert before + Repeat(InsertFails, 0) == before by { OneMore(InsertFails, 0); }
      while retry <= LAST_RETRY
        invariant 0 <= retry <= LAST_RETRY + 1
        invariant FailuresBefore(outcomes) == retry + FailuresBefore(outcomes[retry..])
        invariant retry <= LAST_RETRY ==> View(batch, Writing(retry)) == RunFrom(start, before + Repeat(InsertFails, retry))
        invariant retry > LAST_RETRY ==> View([], Collecting) == RunFrom(start, before + Repeat(InsertFails, retry))
        invariant engines == old(engines) && pricing == old(pricing)
        decreases LAST_RETRY + 1 - retry
      {
        WriterSteps(View(batch, Writing(retry)));
        MoreAttempts(start, before, retry);
        if outcomes[retry] {
          StoredStoreIsValid(View(batch, Writing(retry)), start, before + Repeat(InsertFails, retry));
          InsertAllSound(store.table, batch);
          var inserted, duplicates := store.InsertBatch(batch);
          counters := counters.(persisted := counters.persisted + inserted, duplicate := counters.duplicate + duplicates);
          written, settled := written + KeysOf(batch), settled + KeysOf(batch);
          RunFromKeeps(start, before + AttemptSteps(retry));
          return;
        }
        if retry == LAST_RETRY {
          counters := counters.(writeFailed := counters.writeFailed + |batch|);
          settled := settled + KeysOf(batch);
        }
        retry := retry + 1;
      }
      MoreAttempts(start, before, retry);
      RunFromKeeps(start, before + AttemptSteps(retry));
    }
  }
}
