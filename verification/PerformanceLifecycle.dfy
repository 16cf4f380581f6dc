/** Completion of monitored requests (src/service/performance.rs): guards, the active map, the bounded queue and the
    batching writer. Request ids are fresh; a batch insert is done as a whole or not at all. */
module PerformanceLifecycle {

  const QUEUE_SIZE: nat := 4096
  const ACTIVE_LIMIT: nat := 10_000
  const BATCH_SIZE: nat := 128

  // ---- one guard and the body that carries it ----

  /** `completions` lists the `aborted` flags with which the guard's finish did its work. */
  datatype GuardState = GuardState(finished: bool, completions: seq<bool>)

  function FinishGuard(g: GuardState, aborted: bool): GuardState {
    if g.finished then g else GuardState(true, g.completions + [aborted])
  }

  /** What a poll of the wrapped body yields, or the drop of the body. */
  datatype BodyEvent = PollPending | Frame(lastFrame: bool) | BodyError | BodyEnd | BodyDropped

  datatype BodyState = BodyState(held: bool, guard: GuardState)

  predicate Ends(event: BodyEvent) { event.BodyError? || event.BodyEnd? || (event.Frame? && event.lastFrame) }

  lemma EndingPolls(event: BodyEvent)
    ensures Ends(event) <==> event in {BodyError, BodyEnd, Frame(true)}
  {}

  /** An ending poll takes the guard, finishes it and drops it; dropping the body drops a guard still held. */
  function BodyStep(b: BodyState, event: BodyEvent): BodyState {
    if !b.held then b
    else if Ends(event) then BodyState(false, FinishGuard(FinishGuard(b.guard, false), true))
    else if event.BodyDropped? then BodyState(false, FinishGuard(b.guard, true))
    else b
  }

  function BodyRun(b: BodyState, events: seq<BodyEvent>): BodyState {
    if events == [] then b else BodyStep(BodyRun(b, events[..|events| - 1]), events[|events| - 1])
  }

  /** How a guard ends: dropped before a response, given a response whose body is already over, or carried by a body. */
  datatype GuardLife = NoResponse | EmptyResponse | Carried(events: seq<BodyEvent>)

  const NEW_GUARD := GuardState(false, [])

  /** The guard at the end of its life; a carrying body is dropped in the end. */
  function Live(life: GuardLife): GuardState {
    match life
    case NoResponse => FinishGuard(NEW_GUARD, true)
    case EmptyResponse => FinishGuard(FinishGuard(NEW_GUARD, false), true)
    case Carried(events) => BodyRun(BodyState(true, NEW_GUARD), events + [BodyDropped]).guard
  }

  ghost predicate EndedBeforeDrop(events: seq<BodyEvent>) {
    exists i :: 0 <= i < |events| && Ends(events[i]) && forall j :: 0 <= j < i ==> !events[j].BodyDropped?
  }

  lemma {:induction false} BodyRunState(events: seq<BodyEvent>)
    ensures var b := BodyRun(BodyState(true, NEW_GUARD), events);
            && (b.held ==> b.guard == NEW_GUARD && forall j :: 0 <= j < |events| ==> !events[j].BodyDropped? && !Ends(events[j]))
            && (!b.held ==> b.guard == GuardState(true, [!EndedBeforeDrop(events)]))
  {
    if events != [] {
      var front, last := events[..|events| - 1], events[|events| - 1];
      BodyRunState(front);
      var b := BodyRun(BodyState(true, NEW_GUARD), front);
      assert forall j :: 0 <= j < |front| ==> events[j] == front[j];
      if b.held {
        if Ends(last) { assert Ends(events[|front|]); }
      } else {
        if EndedBeforeDrop(front) {
          var i :| 0 <= i < |front| && Ends(front[i]) && forall j :: 0 <= j < i ==> !front[j].BodyDropped?;
          assert Ends(events[i]);
        }
        if EndedBeforeDrop(events) { LateEndChangesNothing(events); }
      }
    }
  }

  /** Once the guard has gone, one more event does not change whether an end came before the drop. */
  lemma LateEndChangesNothing(events: seq<BodyEvent>)
    requires events != [] && EndedBeforeDrop(events)
    requires !BodyRun(BodyState(true, NEW_GUARD), events[..|events| - 1]).held
    ensures EndedBeforeDrop(events[..|events| - 1])
  {
    var front := events[..|events| - 1];
    var i :| 0 <= i < |events| && Ends(events[i]) && forall j :: 0 <= j < i ==> !events[j].BodyDropped?;
    if i < |front| {
      assert Ends(front[i]);
    } else {
      GoneNeedsCause(front);
      var k :| 0 <= k < |front| && (front[k].BodyDropped? || Ends(front[k]));
      assert !events[k].BodyDropped?;
      assert Ends(front[k]) && forall j :: 0 <= j < k ==> !front[j].BodyDropped?;
    }
  }

  lemma {:induction false} GoneNeedsCause(events: seq<BodyEvent>)
    requires !BodyRun(BodyState(true, NEW_GUARD), events).held
    ensures exists k :: 0 <= k < |events| && (events[k].BodyDropped? || Ends(events[k]))
  {
    var front, last := events[..|events| - 1], events[|events| - 1];
    if !BodyRun(BodyState(true, NEW_GUARD), front).held {
      GoneNeedsCause(front);
      var k :| 0 <= k < |front| && (front[k].BodyDropped? || Ends(front[k]));
      assert events[k] == front[k];
    } else {
      assert events[|front|] == last;
    }
  }

  /** Every guard completes exactly once however its request ends, and counts as aborted exactly when neither an
      end nor an error of the body was polled before everything was dropped. */
  lemma CompletesOnce(life: GuardLife)
    ensures Live(life) == GuardState(true, [match life
                                            case NoResponse => true
                                            case EmptyResponse => false
                                            case Carried(events) => !EndedBeforeDrop(events + [BodyDropped])])
  {
    if life.Carried? {
      BodyRunState(life.events + [BodyDropped]);
      assert (life.events + [BodyDropped])[|life.events|] == BodyDropped;
    }
  }

  // ---- the service ----

  type Id = nat

  datatype Service = Service(
    begun: nat, live: set<Id>, active: set<Id>, queue: seq<Id>, writing: bool, batch: seq<Id>, stored: set<Id>,
    persisted: nat, dropped: nat, expired: nat, writeFailed: nat, activeDropped: nat, used: set<Id>)

  const SERVICE_START := Service(0, {}, {}, [], false, [], {}, 0, 0, 0, 0, 0, {})

  datatype Step =
    | Begin(id: Id)
    | Finish(id: Id, tooOld: bool)
    | Receive                              // the writer takes one more event
    | Retain(expiredIds: set<Id>)              // the writer closes its batch, dropping expired events
    | Insert                               // the batch is committed
    | GiveUp                               // the last retry failed

  function Keep(batch: seq<Id>, tooOld: set<Id>): seq<Id> {
    if batch == [] then []
    else
      var kept, last := Keep(batch[..|batch| - 1], tooOld), batch[|batch| - 1];
      if last in tooOld then kept else kept + [last]
  }

  /** `ON CONFLICT DO NOTHING`, row by row: the table and the number of rows it gained. */
  function InsertRows(stored: set<Id>, batch: seq<Id>): (set<Id>, nat) {
    if batch == [] then (stored, 0)
    else
      var (rows, n) := InsertRows(stored, batch[..|batch| - 1]);
      var last := batch[|batch| - 1];
      if last in rows then (rows, n) else (rows + {last}, n + 1)
  }

  function Apply(s: Service, step: Step): Service {
    match step
    case Begin(id) =>
      if id in s.used then s
      else if |s.active| < ACTIVE_LIMIT then
        s.(begun := s.begun + 1, live := s.live + {id}, used := s.used + {id}, active := s.active + {id})
      else s.(begun := s.begun + 1, live := s.live + {id}, used := s.used + {id}, activeDropped := s.activeDropped + 1)
    case Finish(id, tooOld) =>
      if id !in s.live then s
      else
        var t := s.(live := s.live - {id}, active := s.active - {id});
        if tooOld then t.(expired := t.expired + 1)
        else if |s.queue| < QUEUE_SIZE then t.(queue := t.queue + [id])
        else t.(dropped := t.dropped + 1)
    case Receive =>
      if s.writing || s.queue == [] || |s.batch| >= BATCH_SIZE then s
      else s.(batch := s.batch + [s.queue[0]], queue := s.queue[1..])
    case Retain(tooOld) =>
      if s.writing then s
      else
        var kept := Keep(s.batch, tooOld);
        KeepShrinks(s.batch, tooOld);
        s.(batch := kept, expired := s.expired + (|s.batch| - |kept|), writing := kept != [])
    case Insert =>
      if !s.writing then s
      else
        var (rows, n) := InsertRows(s.stored, s.batch);
        s.(stored := rows, persisted := s.persisted + n, batch := [], writing := false)
    case GiveUp =>
      if !s.writing then s
      else s.(writeFailed := s.writeFailed + |s.batch|, dropped := s.dropped + |s.batch|, batch := [], writing := false)
  }

  function Run(steps: seq<Step>): Service {
    if steps == [] then SERVICE_START else Apply(Run(steps[..|steps| - 1]), steps[|steps| - 1])
  }

  lemma {:induction false} KeepShrinks(batch: seq<Id>, tooOld: set<Id>)
    ensures |Keep(batch, tooOld)| <= |batch|
    ensures forall id :: id in Keep(batch, tooOld) <==> id in batch && id !in tooOld
  {
    if batch != [] {
      KeepShrinks(batch[..|batch| - 1], tooOld);
      assert batch == batch[..|batch| - 1] + [batch[|batch| - 1]];
    }
  }

  ghost predicate Distinct(ids: seq<Id>) { forall i, j :: 0 <= i < j < |ids| ==> ids[i] != ids[j] }

  lemma {:induction false} KeepDistinct(batch: seq<Id>, tooOld: set<Id>)
    requires Distinct(batch)
    ensures Distinct(Keep(batch, tooOld))
  {
    if batch != [] {
      var front, last := batch[..|batch| - 1], batch[|batch| - 1];
      KeepDistinct(front, tooOld);
      KeepShrinks(front, tooOld);
      assert last !in front;
    }
  }

  lemma {:induction false} InsertAddsAll(stored: set<Id>, batch: seq<Id>)
    requires Distinct(batch) && forall id :: id in batch ==> id !in stored
    ensures InsertRows(stored, batch).1 == |batch|
    ensures forall id :: id in InsertRows(stored, batch).0 <==> id in stored || id in batch
  {
    if batch != [] {
      var front, last := batch[..|batch| - 1], batch[|batch| - 1];
      assert batch == front + [last];
      InsertAddsAll(stored, front);
      assert last !in front;
    }
  }

  /** Every id is in one place only, and the active map holds live guards only, within its limit. */
  ghost predicate Placed(s: Service) {
    && s.active <= s.live && |s.active| <= ACTIVE_LIMIT
    && s.live <= s.used && s.stored <= s.used
    && Distinct(s.batch + s.queue)
    && (forall id :: id in s.batch + s.queue ==> id in s.used && id !in s.live && id !in s.stored)
    && s.live !! s.stored
    && |s.queue| <= QUEUE_SIZE && |s.batch| <= BATCH_SIZE
  }

  ghost predicate Conserved(s: Service) {
    s.begun == |s.live| + |s.queue| + |s.batch| + s.persisted + s.dropped + s.expired
  }

  lemma BeginPlaced(s: Service, id: Id)
    requires Placed(s) && Conserved(s) && id !in s.used
    ensures Placed(Apply(s, Begin(id))) && Conserved(Apply(s, Begin(id)))
  {
    assert id !in s.live && id !in s.active;
  }

  lemma FinishPlaced(s: Service, id: Id, tooOld: bool)
    requires Placed(s) && Conserved(s) && id in s.live
    ensures Placed(Apply(s, Finish(id, tooOld))) && Conserved(Apply(s, Finish(id, tooOld)))
  {
    var ids := s.batch + s.queue;
    assert id !in ids;
    assert s.batch + (s.queue + [id]) == ids + [id];
    OneMoreDistinct(ids, id);
    hide Distinct;
    assert |s.live - {id}| == |s.live| - 1;
    OneLess(s.active, id);
  }

  lemma OneLess(ids: set<Id>, id: Id)
    ensures |ids - {id}| <= |ids|
  {
    if id !in ids { assert ids - {id} == ids; }
  }

  lemma OneMoreDistinct(ids: seq<Id>, id: Id)
    requires Distinct(ids) && id !in ids
    ensures Distinct(ids + [id])
  {
  }

  lemma ReceivePlaced(s: Service)
    requires Placed(s) && Conserved(s) && s.queue != [] && |s.batch| < BATCH_SIZE
    ensures Placed(Apply(s, Receive)) && Conserved(Apply(s, Receive))
  {
    assert (s.batch + [s.queue[0]]) + s.queue[1..] == s.batch + s.queue;
  }

  lemma RetainPlaced(s: Service, tooOld: set<Id>)
    requires Placed(s) && Conserved(s)
    ensures Placed(Apply(s, Retain(tooOld))) && Conserved(Apply(s, Retain(tooOld)))
  {
    var kept, ids := Keep(s.batch, tooOld), s.batch + s.queue;
    KeepShrinks(s.batch, tooOld);
    assert forall i :: 0 <= i < |s.batch| ==> s.batch[i] == ids[i];
    KeepDistinct(s.batch, tooOld);
    forall i, j | 0 <= i < j < |kept + s.queue|
      ensures (kept + s.queue)[i] != (kept + s.queue)[j]
    {
      if i < |kept| && |kept| <= j {
        assert kept[i] in s.batch;
        var k :| 0 <= k < |s.batch| && s.batch[k] == kept[i];
        assert ids[k] != ids[|s.batch| + (j - |kept|)];
      } else if |kept| <= i {
        assert ids[|s.batch| + (i - |kept|)] != ids[|s.batch| + (j - |kept|)];
      }
    }
  }

  /** A list of distinct ids, cut in two. */
  lemma DistinctParts(a: seq<Id>, b: seq<Id>)
    requires Distinct(a + b)
    ensures Distinct(a) && Distinct(b) && forall id :: id in a ==> id !in b
  {
    var ids := a + b;
    assert forall i :: 0 <= i < |a| ==> a[i] == ids[i];
    assert forall i :: 0 <= i < |b| ==> b[i] == ids[|a| + i];
  }

  lemma InsertPlaced(s: Service)
    requires Placed(s) && Conserved(s) && s.writing
    ensures Placed(Apply(s, Insert)) && Conserved(Apply(s, Insert))
  {
    hide InsertRows, Distinct;
    DistinctParts(s.batch, s.queue);
    InsertAddsAll(s.stored, s.batch);
    assert [] + s.queue == s.queue;
  }

  lemma GiveUpPlaced(s: Service)
    requires Placed(s) && Conserved(s) && s.writing
    ensures Placed(Apply(s, GiveUp)) && Conserved(Apply(s, GiveUp))
  {
    hide Distinct;
    DistinctParts(s.batch, s.queue);
    assert [] + s.queue == s.queue;
  }

  lemma {:induction false} RunPlaced(steps: seq<Step>)
    ensures Placed(Run(steps)) && Conserved(Run(steps))
  {
    if steps != [] {
      var s, step := Run(steps[..|steps| - 1]), steps[|steps| - 1];
      RunPlaced(steps[..|steps| - 1]);
      hide Placed, Conserved;
      match step
      case Begin(id) => if id !in s.used { BeginPlaced(s, id); }
      case Finish(id, tooOld) => if id in s.live { FinishPlaced(s, id, tooOld); }
      case Receive => if s.queue != [] && |s.batch| < BATCH_SIZE { ReceivePlaced(s); }
      case Retain(tooOld) => RetainPlaced(s, tooOld);
      case Insert => if s.writing { InsertPlaced(s); }
      case GiveUp => if s.writing { GiveUpPlaced(s); }
    }
  }

  /** Over every interleaving of requests and the writer: each begun request is live, queued, in the writer's batch,
      persisted, dropped or expired, and only one of these; the active map holds live requests only and never
      more than its limit. */
  lemma CompletionConserved(steps: seq<Step>)
    ensures var s := Run(steps);
            && s.begun == |s.live| + |s.queue| + |s.batch| + s.persisted + s.dropped + s.expired
            && s.active <= s.live && |s.active| <= ACTIVE_LIMIT
            && s.live !! s.stored && forall id :: id in s.batch + s.queue ==> id !in s.live && id !in s.stored
  {
    RunPlaced(steps);
  }

  // ---- the service as it runs ----

  class PerformanceService {
    var begun: nat
    var live: set<Id>
    var active: set<Id>
    var queue: seq<Id>
    var writing: bool
    var batch: seq<Id>
    var stored: set<Id>
    var persisted: nat
    var dropped: nat
    var expired: nat
    var writeFailed: nat
    var activeDropped: nat
    var used: set<Id>

    function State(): Service
      reads this
    {
      Service(begun, live, active, queue, writing, batch, stored, persisted, dropped, expired, writeFailed, activeDropped, used)
    }

    constructor ()
      ensures State() == SERVICE_START
    {
      begun, live, active, queue, writing, batch, stored := 0, {}, {}, [], false, [], {};
      persisted, dropped, expired, writeFailed, activeDropped, used := 0, 0, 0, 0, 0, {};
    }

    /** The id is a new random one. */
    method BeginRequest(id: Id)
      requires id !in used
      modifies this
      ensures State() == Apply(old(State()), Begin(id))
    {
      begun, live, used := begun + 1, live + {id}, used + {id};
      if |active| < ACTIVE_LIMIT { active := active + {id}; } else { activeDropped := activeDropped + 1; }
    }

    method FinishRequest(id: Id, tooOld: bool)
      modifies this
      ensures State() == Apply(old(State()), Finish(id, tooOld))
    {
      if id !in live { return; }
      live := live - {id};
      active := active - {id};
      if tooOld {
        expired := expired + 1;
      } else if |queue| < QUEUE_SIZE {
        queue := queue + [id];
      } else {
        dropped := dropped + 1;
      }
    }

    method ReceiveOne()
      modifies this
      ensures State() == Apply(old(State()), Receive)
    {
      if writing || queue == [] || |batch| >= BATCH_SIZE { return; }
      batch := batch + [queue[0]];
      queue := queue[1..];
    }

    method RetainFresh(tooOld: set<Id>)
      modifies this
      ensures State() == Apply(old(State()), Retain(tooOld))
    {
      if writing { return; }
      KeepShrinks(batch, tooOld);
      var kept: seq<Id> := [];
      for i := 0 to |batch|
        invariant kept == Keep(batch[..i], tooOld)
        invariant batch == old(batch) && State() == old(State())
      {
        assert batch[..i + 1][..i] == batch[..i];
        if batch[i] !in tooOld { kept := kept + [batch[i]]; }
      }
      assert batch[..|batch|] == batch;
      expired := expired + (|batch| - |kept|);
      batch := kept;
      writing := kept != [];
    }

    method InsertBatch()
      modifies this
      ensures State() == Apply(old(State()), Insert)
    {
      if !writing { return; }
      var rows, n := stored, 0;
      for i := 0 to |batch|
        invariant (rows, n) == InsertRows(stored, batch[..i])
      {
        assert batch[..i + 1][..i] == batch[..i];
        if batch[i] !in rows { rows, n := rows + {batch[i]}, n + 1; }
      }
      assert batch[..|batch|] == batch;
      stored, persisted, batch, writing := rows, persisted + n, [], false;
    }

    method GiveUpBatch()
      modifies this
      ensures State() == Apply(old(State()), GiveUp)
    {
      if !writing { return; }
      writeFailed, dropped := writeFailed + |batch|, dropped + |batch|;
      batch, writing := [], false;
    }
  }
}
