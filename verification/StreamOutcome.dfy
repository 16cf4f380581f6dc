/** Which outcome is stored for a streamed response (src/service/performance.rs), from what its body says. */
module StreamOutcome {
  import opened Wrappers
  import opened UsageParsing
  import opened ResponseObserver
  import opened Milestones
  import opened MilestoneDigest

  // ---- a monitor that failures are reported to as well ----

  /** A call of the observer, or a failure the gateway records. */
  datatype MonitorStep = Called(call: MonitorCall, ms: nat) | Failed(failure: FailureOutcome)

  type FailureOutcome = o: Outcome | o.StreamErrorOutcome? || o.OtherFailure? witness OtherFailure

  function ApplyStep(s: RequestState, step: MonitorStep): RequestState {
    match step case Called(call, ms) => Apply(s, call, ms) case Failed(failure) => Fail(s, failure)
  }

  function ReplaySteps(isStream: bool, steps: seq<MonitorStep>): RequestState {
    if steps == [] then RequestStart(isStream) else ApplyStep(ReplaySteps(isStream, steps[..|steps| - 1]), steps[|steps| - 1])
  }

  function CallsOf(steps: seq<MonitorStep>): seq<MonitorCall> {
    if steps == [] then []
    else CallsOf(steps[..|steps| - 1]) + (if steps[|steps| - 1].Called? then [steps[|steps| - 1].call] else [])
  }

  function TimesOf(steps: seq<MonitorStep>): seq<nat>
    ensures |TimesOf(steps)| == |CallsOf(steps)|
  {
    if steps == [] then []
    else TimesOf(steps[..|steps| - 1]) + (if steps[|steps| - 1].Called? then [steps[|steps| - 1].ms] else [])
  }

  predicate NoFailure(steps: seq<MonitorStep>) { forall k :: 0 <= k < |steps| ==> steps[k].Called? }

  /** Recorded failures touch the outcome only; every milestone is as if they had not happened. */
  lemma {:induction false} FailuresSpareTheMilestones(isStream: bool, steps: seq<MonitorStep>)
    ensures var s := ReplaySteps(isStream, steps); s == Replay(isStream, CallsOf(steps), TimesOf(steps)).(outcome := s.outcome)
    ensures !ReplaySteps(isStream, steps).finished
  {
    if steps != [] {
      var front, last := steps[..|steps| - 1], steps[|steps| - 1];
      FailuresSpareTheMilestones(isStream, front);
      var calls, times := CallsOf(front), TimesOf(front);
      assert calls + [] == calls && times + [] == times;
      if last.Called? {
        assert (calls + [last.call])[..|calls|] == calls && (times + [last.ms])[..|times|] == times;
        OutcomeApart(ReplaySteps(isStream, front), Replay(isStream, calls, times), last.call, last.ms);
      }
    }
  }

  lemma OutcomeApart(s: RequestState, t: RequestState, call: MonitorCall, ms: nat)
    requires !s.finished && s == t.(outcome := s.outcome)
    ensures var u := Apply(s, call, ms); u == Apply(t, call, ms).(outcome := u.outcome) && !u.finished
  {}

  /** What the outcome of a log depends on. */
  ghost predicate OutcomeTracked(s: RequestState, calls: seq<MonitorCall>, noFailure: bool) {
    && !s.finished
    && (EventsOnly(calls) ==> (s.modelCompleted.Some? <==> Observed(MessageStop) in calls))
    && (s.outcome.None? <==> noFailure && Observed(ErrorEvent) !in calls)
    && s.outcome != Some(Succeeded)
    && (s.quality == ParseFailure ==> ParseFailed in calls)
    && (calls != [] && calls[|calls| - 1] == ParseFailed ==> s.quality == ParseFailure)
  }

  lemma CallTracked(s: RequestState, calls: seq<MonitorCall>, noFailure: bool, call: MonitorCall, ms: nat)
    requires OutcomeTracked(s, calls, noFailure)
    ensures OutcomeTracked(Apply(s, call, ms), calls + [call], noFailure)
  {
    assert forall c :: c in calls + [call] <==> c in calls || c == call;
    assert EventsOnly(calls + [call]) ==> EventsOnly(calls) && !call.ObservedBody? by {
      if EventsOnly(calls + [call]) {
        assert (calls + [call])[|calls|] == call;
        assert forall i :: 0 <= i < |calls| ==> calls[i] == (calls + [call])[i];
      }
    }
  }

  lemma {:induction false} ReplayOutcome(isStream: bool, steps: seq<MonitorStep>)
    ensures OutcomeTracked(ReplaySteps(isStream, steps), CallsOf(steps), NoFailure(steps))
  {
    hide Apply, EventsOnly;
    if steps != [] {
      var front, last := steps[..|steps| - 1], steps[|steps| - 1];
      ReplayOutcome(isStream, front);
      assert NoFailure(steps) <==> NoFailure(front) && last.Called?;
      assert CallsOf(front) + [] == CallsOf(front);
      if last.Called? { CallTracked(ReplaySteps(isStream, front), CallsOf(front), NoFailure(front), last.call, last.ms); }
    }
  }

  // ---- what the observer's calls say of the body ----

  /** A rejected parse stays rejected. */
  lemma RejectedStays(env: Env, e: EncodedState, bytes: Bytes, cuts: Cuts)
    requires Rejected(e)
    ensures Rejected(EncodedFeed(env, e, bytes, cuts))
  {
    hide ParserFeed;
    forall fed: Bytes
      ensures Invalid(e.parser) ==> ParserFeed(env, e.parser, fed) == e.parser
    {
      if Invalid(e.parser) { ParserFeedInvalid(env, e.parser, fed); }
    }
  }

  lemma RejectedIsFinal(env: Env, e: EncodedState, cut: nat)
    requires Rejected(e) && e.parser.Sse?
    ensures Rejected(EncodedFinish(env, e, false, cut))
  {
    hide ParserFeed;
    forall fed: Bytes
      ensures Invalid(e.parser) ==> ParserFeed(env, e.parser, fed) == e.parser
    {
      if Invalid(e.parser) { ParserFeedInvalid(env, e.parser, fed); }
    }
  }

  /** The log shows exactly the parser's events, and a parse failure only of a rejected parse. */
  ghost predicate LogShows(o: ObserverState) {
    && o.monitored && o.encoded.parser.Sse?
    && (forall event :: Observed(event) in o.calls <==> event in o.encoded.parser.sse.observed)
    && (ParseFailed in o.calls ==> Rejected(o.encoded))
  }

  lemma RecordedShows(o: ObserverState, e: EncodedState, bytes: Bytes)
    requires LogShows(o) && Grows(o.encoded.parser, e.parser) && (Rejected(o.encoded) ==> Rejected(e))
    ensures LogShows(Recorded(o, e, bytes))
    ensures Rejected(e) ==> var calls := Recorded(o, e, bytes).calls; calls != [] && calls[|calls| - 1] == ParseFailed
  {
    hide Rejected;
    var p, q := o.encoded.parser.sse, e.parser.sse;
    var added := q.observed[|p.observed|..];
    assert q.observed == p.observed + added;
    assert NewObservations(o.encoded.parser, e.parser) == EventCalls(added);
    CallsShow(added);
    RecordedCalls(o, e, bytes);
    hide NewObservations, EventCalls, Grows;
    assert Recorded(o, e, bytes).encoded == e && Recorded(o, e, bytes).monitored;
  }

  lemma CallsShow(events: seq<SseEvent>)
    ensures forall event :: Observed(event) in EventCalls(events) <==> event in events
    ensures ParseFailed !in EventCalls(events)
  {
    forall event | event in events
      ensures Observed(event) in EventCalls(events)
    {
      var k :| 0 <= k < |events| && events[k] == event;
      assert EventCalls(events)[k] == Observed(event);
    }
  }

  lemma FeedShows(env: Env, o: ObserverState, bytes: Bytes, cuts: Cuts)
    requires LogShows(o)
    ensures LogShows(ObserverFeed(env, o, bytes, cuts))
  {
    hide EncodedFeed, Recorded, Finalize, Grows;
    EncodedFeedGrows(env, o.encoded, bytes, cuts);
    if Rejected(o.encoded) { RejectedStays(env, o.encoded, bytes, cuts); }
    var e := EncodedFeed(env, o.encoded, bytes, cuts);
    RecordedShows(o, e, bytes);
    SettleKeepsLog(Recorded(o, e, bytes), false, false);
  }

  lemma {:induction false} ChunksShow(env: Env, encoding: Encoding, events: seq<StreamEvent>)
    requires OnlyChunks(events)
    ensures var s := Run(env, StreamStart(true, encoding, true), events); s.live && LogShows(s.observer)
  {
    hide ObserverFeed, LogShows, ObserverStart;
    if events == [] {
      assert LogShows(ObserverStart(true, encoding, true)) by { StartShows(encoding); }
    } else {
      var front, last := events[..|events| - 1], events[|events| - 1];
      ChunksShow(env, encoding, front);
      if last.Chunk? { FeedShows(env, Run(env, StreamStart(true, encoding, true), front).observer, last.bytes, last.cuts); }
    }
  }

  lemma StartShows(encoding: Encoding)
    ensures LogShows(ObserverStart(true, encoding, true))
  {}

  predicate BodyRejected(env: Env, encoding: Encoding, body: Bytes) {
    SettlementOf(env, true, encoding, body) == WithoutUsage(true, false)
  }

  /** Read to its end, a body that is rejected ends the log with the failure; one that is not shows exactly its events. */
  lemma EndShows(env: Env, encoding: Encoding, events: seq<StreamEvent>, cut: nat)
    requires ValidEnv(env) && OnlyChunks(events)
    ensures var calls := Run(env, StreamStart(true, encoding, true), events + [EndOfStream(cut)]).observer.calls;
            var body := BodyOf(events);
            if BodyRejected(env, encoding, body) then calls != [] && calls[|calls| - 1] == ParseFailed
            else ParseFailed !in calls && forall event :: Observed(event) in calls <==> event in ShownBy(env, encoding, body)
  {
    hide Run, StreamStart, EncodedFinish, Recorded, Grows, LogShows, InStep, BodyRejected, ShownBy, DecodedBody, ParserFeed, ParserFinish;
    var o, body := Run(env, StreamStart(true, encoding, true), events).observer, BodyOf(events);
    ChunksShow(env, encoding, events);
    EndRecords(env, encoding, events, cut);
    var f := EncodedFinish(env, o.encoded, false, cut);
    EncodedFinishGrows(env, o.encoded, false, cut);
    FinalState(env, encoding, events, cut);
    RecordedFinally(o, f);
  }

  /** The end of the stream adds one last record, of the decoder's finish. */
  lemma EndRecords(env: Env, encoding: Encoding, events: seq<StreamEvent>, cut: nat)
    requires OnlyChunks(events)
    ensures var start := StreamStart(true, encoding, true); var o := Run(env, start, events).observer;
            Run(env, start, events + [EndOfStream(cut)]).observer.calls
            == Recorded(o, EncodedFinish(env, o.encoded, false, cut), []).calls
  {
    hide EncodedFinish, Recorded, LogShows, Finalize, StreamStart;
    var o := Run(env, StreamStart(true, encoding, true), events).observer;
    assert (events + [EndOfStream(cut)])[..|events|] == events;
    ChunksShow(env, encoding, events);
    assert o.monitored by { ShowsMonitored(o); }
    SettleKeepsLog(Recorded(o, EncodedFinish(env, o.encoded, false, cut), []), true, false);
  }

  lemma ShowsMonitored(o: ObserverState)
    requires LogShows(o)
    ensures o.monitored && o.encoded.parser.Sse?
  {}

  lemma FinalState(env: Env, encoding: Encoding, events: seq<StreamEvent>, cut: nat)
    requires ValidEnv(env) && OnlyChunks(events)
    ensures var o := Run(env, StreamStart(true, encoding, true), events).observer;
            var f := EncodedFinish(env, o.encoded, false, cut);
            && (Rejected(o.encoded) ==> Rejected(f))
            && (Rejected(f) <==> BodyRejected(env, encoding, BodyOf(events)))
            && (!Rejected(f) ==> f.parser.Sse? && f.parser.sse.observed == ShownBy(env, encoding, BodyOf(events)))
  {
    hide EncodedFinish, Rejected, BodyRejected, ShownBy, DecodedBody, Tracks, ParserFeed, ParserFinish, Run, LogShows;
    var o := Run(env, StreamStart(true, encoding, true), events).observer;
    ChunksShow(env, encoding, events);
    ShowsMonitored(o);
    ChunksInStep(env, true, encoding, true, events);
    FinishTracks(env, true, encoding, o.encoded, BodyOf(events), cut);
    if Rejected(o.encoded) { RejectedIsFinal(env, o.encoded, cut); }
    FinishedBody(env, encoding, BodyOf(events), EncodedFinish(env, o.encoded, false, cut));
  }

  lemma RecordedFinally(o: ObserverState, f: EncodedState)
    requires LogShows(o) && Grows(o.encoded.parser, f.parser) && (Rejected(o.encoded) ==> Rejected(f))
    ensures var calls := Recorded(o, f, []).calls;
            if Rejected(f) then calls != [] && calls[|calls| - 1] == ParseFailed
            else f.parser.Sse? && ParseFailed !in calls && forall event :: Observed(event) in calls <==> event in f.parser.sse.observed
  {
    hide Rejected, NewObservations, Grows;
    RecordedShows(o, f, []);
    assert Recorded(o, f, []).encoded == f;
  }

  lemma FinishedBody(env: Env, encoding: Encoding, body: Bytes, f: EncodedState)
    requires var text := DecodedBody(env, encoding, body);
             if text.None? || Invalid(ParserFeed(env, ParserStart(true), text.value)) then Rejected(f)
             else !f.failed && f.parser == ParserFinish(env, ParserFeed(env, ParserStart(true), text.value))
    ensures Rejected(f) <==> BodyRejected(env, encoding, body)
    ensures !Rejected(f) ==> f.parser.Sse? && f.parser.sse.observed == ShownBy(env, encoding, body)
  {
    hide DecodedBody, SseFeed;
  }

  /** A streamed response read to its normal end is stored as a success if and only if its body decodes and parses
      without rejection, reaches message_stop and shows no error event, no failure was recorded, and the response to
      the client was not aborted. */
  lemma SucceedsExactly(env: Env, encoding: Encoding, events: seq<StreamEvent>, cut: nat,
                        steps: seq<MonitorStep>, end: nat, aborted: bool)
    requires ValidEnv(env) && OnlyChunks(events)
    requires CallsOf(steps) == Run(env, StreamStart(true, encoding, true), events + [EndOfStream(cut)]).observer.calls
    ensures var body := BodyOf(events);
            Completed(ReplaySteps(true, steps), end, aborted).outcome == Some(Succeeded)
            <==> && !BodyRejected(env, encoding, body)
                 && MessageStop in ShownBy(env, encoding, body) && ErrorEvent !in ShownBy(env, encoding, body)
                 && NoFailure(steps) && !aborted
  {
    hide ReplaySteps, CallsOf, NoFailure, BodyRejected, ShownBy, Run, EventsOnly;
    RunKeepsLog(env, true, encoding, events + [EndOfStream(cut)]);
    EndShows(env, encoding, events, cut);
    ReplayOutcome(true, steps);
  }

  /** The outcome when failures were recorded: an error event counts before them, the first of them before anything the
      finish would find. */
  lemma FailureIsStored(isStream: bool, steps: seq<MonitorStep>, end: nat, aborted: bool, k: nat)
    requires k < |steps| && steps[k].Failed? && forall j :: 0 <= j < k ==> steps[j].Called?
    ensures Completed(ReplaySteps(isStream, steps), end, aborted).outcome
            == Some(if Observed(ErrorEvent) in CallsOf(steps) then StreamErrorOutcome else steps[k].failure)
  {
    FirstFailureStays(isStream, steps, k);
  }

  lemma {:induction false} FirstFailureStays(isStream: bool, steps: seq<MonitorStep>, k: nat)
    requires forall j :: 0 <= j < k && j < |steps| ==> steps[j].Called?
    requires k < |steps| ==> steps[k].Failed?
    ensures !ReplaySteps(isStream, steps).finished
    ensures ReplaySteps(isStream, steps).outcome
            == if Observed(ErrorEvent) in CallsOf(steps) then Some(StreamErrorOutcome) else if k < |steps| then Some(steps[k].failure) else None
  {
    hide Apply;
    if steps != [] {
      var front, last := steps[..|steps| - 1], steps[|steps| - 1];
      FirstFailureStays(isStream, front, k);
      assert CallsOf(front) + [] == CallsOf(front);
      if last.Called? {
        CallFields(ReplaySteps(isStream, front), last.call, last.ms);
        assert Observed(ErrorEvent) in CallsOf(front) + [last.call] <==> Observed(ErrorEvent) in CallsOf(front) || last.call == Observed(ErrorEvent);
      }
    }
  }
}
