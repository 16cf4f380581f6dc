/** Observers and ingestion together (src/service/usage.rs): many responses polled in any order in front of one queue,
    writer and table, and the health counters they share. */
module UsagePipeline {
  import opened Wrappers
  import opened UsageParsing
  import R = ResponseObserver
  import I = UsageIngestion

  type ResponseId = nat

  /** A response and everything it has been polled for. */
  datatype Response = Response(attempt: I.Attempt, streaming: bool, encoding: R.Encoding, monitored: bool, polls: seq<R.StreamEvent>)

  function StateOf(env: R.Env, r: Response): R.StreamState {
    R.Run(env, R.StreamStart(r.streaming, r.encoding, r.monitored), r.polls)
  }

  function SettledAs(env: R.Env, r: Response): seq<R.Settlement> { StateOf(env, r).observer.settlements }
  function FailuresOf(env: R.Env, r: Response): nat { |StateOf(env, r).observer.parseFailures| }

  datatype Pipeline = Pipeline(responses: map<ResponseId, Response>, ingest: I.Ingest, parseFailures: nat)

  datatype Step =
    | Open(id: ResponseId, attempt: I.Attempt, streaming: bool, encoding: R.Encoding, monitored: bool)
    | Poll(id: ResponseId, event: R.StreamEvent, writerAlive: bool)
    | Behind(step: I.Step)      // the writer, price refreshes, backfill and retention

  /** A poll that settles a response with usage submits it. */
  function SubmitNew(ingest: I.Ingest, attempt: I.Attempt, before: seq<R.Settlement>, after: seq<R.Settlement>, writerAlive: bool): I.Ingest
    requires ingest.engines != []
  {
    if |after| == |before| + 1 && after[|before|].Submitted?
    then I.Apply(ingest, I.Submit(attempt, after[|before|].usage, writerAlive)) else ingest
  }

  function Apply(env: R.Env, p: Pipeline, step: Step): Pipeline
    requires p.ingest.engines != []
  {
    match step
    case Open(id, attempt, streaming, encoding, monitored) =>
      if id in p.responses then p else p.(responses := p.responses[id := Response(attempt, streaming, encoding, monitored, [])])
    case Poll(id, event, writerAlive) =>
      if id !in p.responses then p
      else
        var before := p.responses[id];
        var after := before.(polls := before.polls + [event]);
        var failures := FailuresOf(env, after) - FailuresOf(env, before);
        Pipeline(p.responses[id := after],
                 SubmitNew(p.ingest, after.attempt, SettledAs(env, before), SettledAs(env, after), writerAlive),
                 p.parseFailures + if failures >= 0 then failures else 0)
    case Behind(step) => if step.Submit? then p else p.(ingest := I.Apply(p.ingest, step))
  }

  function Run(env: R.Env, engine: I.Engine, steps: seq<Step>): (p: Pipeline)
    ensures p.ingest.engines != []
  {
    if steps == [] then Pipeline(map[], I.Start(engine), 0)
    else
      var p := Apply(env, Run(env, engine, steps[..|steps| - 1]), steps[|steps| - 1]);
      EnginesStay(env, Run(env, engine, steps[..|steps| - 1]), steps[|steps| - 1]);
      p
  }

  lemma EnginesStay(env: R.Env, p: Pipeline, step: Step)
    requires p.ingest.engines != []
    ensures Apply(env, p, step).ingest.engines != []
  {
    hide SettledAs, FailuresOf, I.Apply;
    forall background
      ensures I.Apply(p.ingest, background).engines != []
    {
      IngestKeepsEngines(p.ingest, background);
    }
  }

  lemma IngestKeepsEngines(ingest: I.Ingest, step: I.Step)
    requires ingest.engines != []
    ensures I.Apply(ingest, step).engines != []
  {
    hide I.EventOf, I.BackfillRow, I.RepriceAll;
  }

  /** Every step reaches its part: a response is opened and polled, background work happens in the ingestion. */
  lemma StepsReachTheirParts(env: R.Env, p: Pipeline, id: ResponseId, r: Response, event: R.StreamEvent, writerAlive: bool, background: I.Step)
    requires p.ingest.engines != []
    ensures id !in p.responses && r.polls == []
            ==> Apply(env, p, Open(id, r.attempt, r.streaming, r.encoding, r.monitored)) == p.(responses := p.responses[id := r])
    ensures id in p.responses
            ==> Apply(env, p, Poll(id, event, writerAlive)).responses == p.responses[id := p.responses[id].(polls := p.responses[id].polls + [event])]
    ensures !background.Submit? ==> Apply(env, p, Behind(background)) == p.(ingest := I.Apply(p.ingest, background))
  {
    hide SettledAs, FailuresOf, SubmitNew, I.Apply;
  }

  // ---- one response ----

  predicate Submitted(ss: seq<R.Settlement>) { ss != [] && ss[0].Submitted? }
  predicate Rejected(ss: seq<R.Settlement>) { ss != [] && ss[0].WithoutUsage? && ss[0].rejected }

  /** Every submission has usage to count. */
  ghost predicate WorthCounting(o: R.ObserverState) {
    forall k :: 0 <= k < |o.settlements| && o.settlements[k].Submitted? ==> o.settlements[k].usage.hasUsage
  }

  lemma FinalizeCounts(o: R.ObserverState, terminal: bool, dropped: bool)
    requires WorthCounting(o)
    ensures var f := R.Finalize(o, terminal, dropped);
            && WorthCounting(f)
            && (!o.attempt ==> f.settlements == o.settlements && f.parseFailures == o.parseFailures)
  {
    hide R.Parsed, R.Rejected, R.Complete, R.Oversized;
  }

  lemma StepCounts(env: R.Env, s: R.StreamState, event: R.StreamEvent)
    requires WorthCounting(s.observer)
    ensures var t := R.StreamStep(env, s, event).observer;
            && WorthCounting(t)
            && (!s.observer.attempt ==> t.settlements == s.observer.settlements && t.parseFailures == s.observer.parseFailures)
  {
    hide R.Finalize, R.EncodedFeed, R.EncodedFinish, R.NewObservations, R.Complete, R.Rejected;
    forall e, bytes, terminal, dropped
      ensures var o := R.Recorded(s.observer, e, bytes); var f := R.Finalize(o, terminal, dropped);
              && o.settlements == s.observer.settlements && o.parseFailures == s.observer.parseFailures && o.attempt == s.observer.attempt
              && WorthCounting(f) && (!o.attempt ==> f.settlements == o.settlements && f.parseFailures == o.parseFailures)
    {
      FinalizeCounts(R.Recorded(s.observer, e, bytes), terminal, dropped);
    }
  }

  lemma {:induction false} RunCounts(env: R.Env, s: R.StreamState, events: seq<R.StreamEvent>)
    requires WorthCounting(s.observer)
    ensures WorthCounting(R.Run(env, s, events).observer)
  {
    hide R.StreamStep, WorthCounting;
    if events != [] {
      RunCounts(env, s, events[..|events| - 1]);
      StepCounts(env, R.Run(env, s, events[..|events| - 1]), events[|events| - 1]);
    }
  }

  /** A poll leaves a settled response as it is and settles an open one at most once. */
  lemma PollSettles(env: R.Env, r: Response, event: R.StreamEvent)
    ensures var after := r.(polls := r.polls + [event]); var ss, tt := SettledAs(env, r), SettledAs(env, after);
            && FailuresOf(env, r) == (if Rejected(ss) then 1 else 0) && FailuresOf(env, after) == (if Rejected(tt) then 1 else 0)
            && (tt == ss || (ss == [] && |tt| == 1 && (tt[0].Submitted? ==> tt[0].usage.hasUsage)))
  {
    var start := R.StreamStart(r.streaming, r.encoding, r.monitored);
    assert (r.polls + [event])[..|r.polls|] == r.polls;
    R.RunAccounted(env, start, r.polls);
    R.RunAccounted(env, start, r.polls + [event]);
    RunCounts(env, start, r.polls);
    StepCounts(env, R.Run(env, start, r.polls), event);
    hide R.StreamStep;
  }

  // ---- the counters ----

  ghost function SubmittedIds(env: R.Env, p: Pipeline): set<ResponseId> { set id | id in p.responses && Submitted(SettledAs(env, p.responses[id])) }
  ghost function RejectedIds(env: R.Env, p: Pipeline): set<ResponseId> { set id | id in p.responses && Rejected(SettledAs(env, p.responses[id])) }

  ghost predicate Balanced(env: R.Env, p: Pipeline) {
    && p.ingest.engines != [] && I.Accounted(p.ingest) && I.Stored(p.ingest)
    && p.ingest.counters.observed == |SubmittedIds(env, p)|
    && p.parseFailures == |RejectedIds(env, p)|
  }

  lemma OpenBalanced(env: R.Env, p: Pipeline, id: ResponseId, r: Response)
    requires Balanced(env, p) && id !in p.responses && r.polls == []
    ensures Balanced(env, p.(responses := p.responses[id := r]))
  {
    hide I.Accounted, I.Stored;
    var q := p.(responses := p.responses[id := r]);
    assert SettledAs(env, r) == [];
    hide SettledAs;
    assert SubmittedIds(env, q) == SubmittedIds(env, p) && RejectedIds(env, q) == RejectedIds(env, p);
  }

  lemma SubmitCounts(ingest: I.Ingest, attempt: I.Attempt, usage: ParsedUsage, writerAlive: bool)
    requires ingest.engines != [] && usage.hasUsage
    ensures I.Apply(ingest, I.Submit(attempt, usage, writerAlive)).counters.observed == ingest.counters.observed + 1
  {
    hide I.EventOf;
  }

  lemma BehindKeepsObserved(ingest: I.Ingest, step: I.Step)
    requires ingest.engines != [] && !step.Submit?
    ensures I.Apply(ingest, step).counters.observed == ingest.counters.observed
  {
    hide I.BackfillRow, I.RepriceAll;
  }

  /** Replacing one response moves its id in or out of a set of ids. */
  lemma ReplacedIds(env: R.Env, p: Pipeline, q: Pipeline, id: ResponseId)
    requires id in p.responses && id in q.responses && q.responses == p.responses[id := q.responses[id]]
    ensures SubmittedIds(env, q)
         == if Submitted(SettledAs(env, q.responses[id])) then SubmittedIds(env, p) + {id} else SubmittedIds(env, p) - {id}
    ensures RejectedIds(env, q)
         == if Rejected(SettledAs(env, q.responses[id])) then RejectedIds(env, p) + {id} else RejectedIds(env, p) - {id}
    ensures id in SubmittedIds(env, p) <==> Submitted(SettledAs(env, p.responses[id]))
    ensures id in RejectedIds(env, p) <==> Rejected(SettledAs(env, p.responses[id]))
  {
    hide SettledAs;
  }

  lemma SubmitNewBalanced(ingest: I.Ingest, attempt: I.Attempt, ss: seq<R.Settlement>, tt: seq<R.Settlement>, writerAlive: bool)
    requires ingest.engines != [] && I.Accounted(ingest) && I.Stored(ingest)
    requires tt == ss || (ss == [] && |tt| == 1 && (tt[0].Submitted? ==> tt[0].usage.hasUsage))
    ensures var next := SubmitNew(ingest, attempt, ss, tt, writerAlive);
            && next.engines != [] && I.Accounted(next) && I.Stored(next)
            && next.counters.observed == ingest.counters.observed + (if Submitted(tt) && !Submitted(ss) then 1 else 0)
  {
    hide I.Accounted, I.Stored, I.Apply;
    if tt != ss && tt[0].Submitted? {
      var step := I.Submit(attempt, tt[0].usage, writerAlive);
      SubmitCounts(ingest, attempt, tt[0].usage, writerAlive);
      I.StepKeeps(ingest, step);
      IngestKeepsEngines(ingest, step);
    }
  }

  lemma PollBalanced(env: R.Env, p: Pipeline, id: ResponseId, event: R.StreamEvent, writerAlive: bool)
    requires Balanced(env, p) && id in p.responses
    ensures Balanced(env, Apply(env, p, Poll(id, event, writerAlive)))
  {
    hide SettledAs, FailuresOf, I.Accounted, I.Stored, SubmittedIds, RejectedIds, SubmitNew, Submitted;
    var before := p.responses[id];
    var after := before.(polls := before.polls + [event]);
    var q := Apply(env, p, Poll(id, event, writerAlive));
    PollSettles(env, before, event);
    ReplacedIds(env, p, q, id);
    SubmitNewBalanced(p.ingest, after.attempt, SettledAs(env, before), SettledAs(env, after), writerAlive);
    SubmittedOnce(SettledAs(env, before), SettledAs(env, after));
    SameSize(SubmittedIds(env, p), id);
    SameSize(RejectedIds(env, p), id);
  }

  lemma SubmittedOnce(ss: seq<R.Settlement>, tt: seq<R.Settlement>)
    requires tt == ss || ss == []
    ensures (Submitted(ss) ==> Submitted(tt)) && (Rejected(ss) ==> Rejected(tt))
  {}

  lemma SameSize(ids: set<ResponseId>, id: ResponseId)
    ensures |ids + {id}| == |ids| + (if id in ids then 0 else 1)
    ensures id !in ids ==> ids - {id} == ids
  {
    if id in ids { assert ids + {id} == ids; }
  }

  /** Over every interleaving of polls and background work: events observed are the responses settled with usage, each
      of them dropped, queued, batched, persisted, duplicate or failed; parse failures are the responses rejected. */
  lemma {:induction false} PipelineConserves(env: R.Env, engine: I.Engine, steps: seq<Step>)
    ensures var p := Run(env, engine, steps); var c := p.ingest.counters;
            && Balanced(env, p)
            && |SubmittedIds(env, p)| == c.queueDropped + |p.ingest.queue| + |p.ingest.batch| + c.persisted + c.duplicate + c.writeFailed
  {
    hide Balanced, I.Stored, I.Accounted, I.KeysOf;
    PipelineBalanced(env, engine, steps);
    BalanceAddsUp(env, Run(env, engine, steps));
  }

  lemma BalanceAddsUp(env: R.Env, p: Pipeline)
    requires Balanced(env, p)
    ensures var c := p.ingest.counters;
            |SubmittedIds(env, p)| == c.queueDropped + |p.ingest.queue| + |p.ingest.batch| + c.persisted + c.duplicate + c.writeFailed
  {
    hide I.Stored, SubmittedIds, RejectedIds;
  }

  lemma {:induction false} PipelineBalanced(env: R.Env, engine: I.Engine, steps: seq<Step>)
    ensures Balanced(env, Run(env, engine, steps))
  {
    if steps == [] {
      I.RunConserves(engine, []);
      assert I.Run(engine, []) == I.Start(engine);
      assert SubmittedIds(env, Run(env, engine, [])) == {} && RejectedIds(env, Run(env, engine, [])) == {};
    } else {
      hide Balanced, I.Apply, SettledAs, FailuresOf, SubmitNew;
      var p, step := Run(env, engine, steps[..|steps| - 1]), steps[|steps| - 1];
      PipelineBalanced(env, engine, steps[..|steps| - 1]);
      match step
      case Open(id, attempt, streaming, encoding, monitored) =>
        if id !in p.responses { OpenBalanced(env, p, id, Response(attempt, streaming, encoding, monitored, [])); }
      case Poll(id, event, writerAlive) => if id in p.responses { PollBalanced(env, p, id, event, writerAlive); }
      case Behind(background) => if !background.Submit? { BehindBalanced(env, p, background); }
    }
  }

  lemma BehindBalanced(env: R.Env, p: Pipeline, step: I.Step)
    requires Balanced(env, p) && !step.Submit?
    ensures Balanced(env, Apply(env, p, Behind(step)))
  {
    hide I.Apply, I.Stored, I.Accounted;
    I.StepKeeps(p.ingest, step);
    BehindKeepsObserved(p.ingest, step);
    EnginesStay(env, p, Behind(step));
    assert SubmittedIds(env, Apply(env, p, Behind(step))) == SubmittedIds(env, p);
    assert RejectedIds(env, Apply(env, p, Behind(step))) == RejectedIds(env, p);
  }

  // ---- the counters are a function of the bodies ----

  /** Polled for chunks and then its end. */
  predicate ReadToTheEnd(r: Response) {
    r.polls != [] && r.polls[|r.polls| - 1].EndOfStream? && R.OnlyChunks(r.polls[..|r.polls| - 1])
  }

  function BodyOf(r: Response): Bytes { if r.polls == [] then [] else R.BodyOf(r.polls[..|r.polls| - 1]) }

  function VerdictOn(env: R.Env, r: Response): R.Settlement { R.SettlementOf(env, r.streaming, r.encoding, BodyOf(r)) }

  /** Once every response has been read to its end, the two counters are what the bodies say, however the responses
      were cut, interleaved with each other and with the writer. */
  lemma CountersFollowBodies(env: R.Env, engine: I.Engine, steps: seq<Step>)
    requires R.ValidEnv(env)
    requires var p := Run(env, engine, steps); forall id :: id in p.responses ==> ReadToTheEnd(p.responses[id])
    ensures var p := Run(env, engine, steps);
            && p.ingest.counters.observed == |set id | id in p.responses && VerdictOn(env, p.responses[id]).Submitted?|
            && p.parseFailures == |set id | id in p.responses && VerdictOn(env, p.responses[id]) == R.WithoutUsage(true, false)|
  {
    var p := Run(env, engine, steps);
    PipelineBalanced(env, engine, steps);
    hide Run, SettledAs, VerdictOn, I.Accounted, I.Stored, ReadToTheEnd;
    forall id | id in p.responses
      ensures SettledAs(env, p.responses[id]) == [VerdictOn(env, p.responses[id])]
      ensures VerdictOn(env, p.responses[id]).WithoutUsage? ==> !VerdictOn(env, p.responses[id]).dropped
    {
      EndedResponse(env, p.responses[id]);
    }
    assert SubmittedIds(env, p) == set id | id in p.responses && VerdictOn(env, p.responses[id]).Submitted?;
    assert RejectedIds(env, p) == set id | id in p.responses && VerdictOn(env, p.responses[id]) == R.WithoutUsage(true, false);
  }

  lemma EndedResponse(env: R.Env, r: Response)
    requires R.ValidEnv(env) && ReadToTheEnd(r)
    ensures SettledAs(env, r) == [VerdictOn(env, r)] && (VerdictOn(env, r).WithoutUsage? ==> !VerdictOn(env, r).dropped)
  {
    var chunks, last := r.polls[..|r.polls| - 1], r.polls[|r.polls| - 1];
    assert r.polls == chunks + [R.EndOfStream(last.cut)];
    R.SettlementDependsOnBodyOnly(env, r.streaming, r.encoding, r.monitored, chunks, last.cut);
    hide R.Run, R.DecodedBody, R.ParserFeed, R.ParserFinish;
  }
}
