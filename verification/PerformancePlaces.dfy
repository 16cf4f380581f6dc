/** Where each step of the performance service puts a request (src/service/performance.rs). */
module PerformancePlaces {
  import opened PerformanceLifecycle

  /** A new request is live, and in the active map unless 10 000 requests are there already. */
  lemma BeginEnters(s: Service, id: Id)
    requires id !in s.used
    ensures var t := Apply(s, Begin(id));
            && t.begun == s.begun + 1 && t.live == s.live + {id} && t.queue == s.queue && t.dropped == s.dropped && t.expired == s.expired
            && if |s.active| < 10_000 then t.active == s.active + {id} && t.activeDropped == s.activeDropped
               else t.active == s.active && t.activeDropped == s.activeDropped + 1
  {}

  /** A finished one leaves both; its event joins the end of the queue unless it is too old or 4096 events wait. */
  lemma FinishQueues(s: Service, id: Id, tooOld: bool)
    requires id in s.live
    ensures var t := Apply(s, Finish(id, tooOld));
            && t.live == s.live - {id} && t.active == s.active - {id} && t.begun == s.begun && t.persisted == s.persisted
            && (if tooOld then t.expired == s.expired + 1 else t.expired == s.expired)
            && (if !tooOld && |s.queue| < 4096 then t.queue == s.queue + [id] else t.queue == s.queue)
            && (if !tooOld && |s.queue| >= 4096 then t.dropped == s.dropped + 1 else t.dropped == s.dropped)
  {}

  /** The batch takes events from the front of the queue, up to 128. */
  lemma BatchFills(s: Service)
    requires !s.writing && s.queue != [] && |s.batch| < 128
    ensures var t := Apply(s, Receive); t == s.(batch := s.batch + [s.queue[0]], queue := s.queue[1..])
  {}

  lemma KeepLast(batch: seq<Id>, tooOld: set<Id>, id: Id)
    ensures Keep(batch + [id], tooOld) == Keep(batch, tooOld) + if id in tooOld then [] else [id]
  {
    assert (batch + [id])[..|batch|] == batch && (batch + [id])[|batch|] == id;
  }

  /** The filter works event by event and keeps the order. */
  lemma {:induction false} KeepSplits(a: seq<Id>, b: seq<Id>, tooOld: set<Id>)
    ensures Keep(a + b, tooOld) == Keep(a, tooOld) + Keep(b, tooOld)
    ensures b != [] ==> Keep([b[0]], tooOld) == if b[0] in tooOld then [] else [b[0]]
    decreases |b|
  {
    hide Keep;
    NothingKept(tooOld);
    if b == [] {
      assert a + b == a;
    } else {
      var front, last := b[..|b| - 1], b[|b| - 1];
      KeepSplits(a, front, tooOld);
      KeepLast(a + front, tooOld, last);
      KeepLast(front, tooOld, last);
      KeepLast([], tooOld, b[0]);
      assert a + b == (a + front) + [last] && b == front + [last] && [] + [b[0]] == [b[0]];
    }
  }

  lemma NothingKept(tooOld: set<Id>)
    ensures Keep([], tooOld) == []
  {}

  /** A batch closes with the events that are not too old, which count as expired; each inserted one is then stored and
      counted as persisted, each of a batch given up as dropped and as failed. */
  lemma BatchIsWritten(s: Service, tooOld: set<Id>)
    requires Placed(s)
    ensures !s.writing ==>
              var t := Apply(s, Retain(tooOld));
              && (forall id :: id in t.batch <==> id in s.batch && id !in tooOld)
              && t.expired - s.expired == |s.batch| - |t.batch| && (t.writing <==> t.batch != [])
              && t.queue == s.queue && t.stored == s.stored && t.persisted == s.persisted && t.dropped == s.dropped
    ensures s.writing ==>
              var t := Apply(s, Insert);
              && (forall id :: id in t.stored <==> id in s.stored || id in s.batch) && t.persisted == s.persisted + |s.batch|
              && t.batch == [] && !t.writing && t.dropped == s.dropped && t.writeFailed == s.writeFailed && t.queue == s.queue
    ensures s.writing ==>
              var t := Apply(s, GiveUp);
              t == s.(batch := [], writing := false, dropped := s.dropped + |s.batch|, writeFailed := s.writeFailed + |s.batch|)
  {
    KeepShrinks(s.batch, tooOld);
    DistinctParts(s.batch, s.queue);
    assert forall id :: id in s.batch ==> id in s.batch + s.queue;
    InsertAddsAll(s.stored, s.batch);
    hide InsertRows, Keep, Distinct;
  }
}
