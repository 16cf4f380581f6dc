/** The timing state of one monitored request (src/service/performance.rs) and the order of its milestones. */
module Milestones {
  import opened Wrappers
  import opened Numeric
  import opened UsageParsing
  import opened ResponseObserver

  datatype Quality = FullyObserved | Partial | ParseFailure
  datatype Outcome = StreamErrorOutcome | OtherFailure | Aborted | Unknown | Succeeded | Incomplete

  /** `RequestState`: milliseconds since the request started. */
  datatype RequestState = RequestState(
    isStream: bool, firstByte: Option<nat>, firstContent: Option<nat>, firstText: Option<nat>, modelCompleted: Option<nat>,
    duration: Option<nat>, maxGap: Option<nat>, lastContent: Option<nat>, batch: nat, lastContentBatch: Option<nat>,
    contentBatches: nat, quality: Quality, outcome: Option<Outcome>, finished: bool)

  function RequestStart(isStream: bool): RequestState {
    RequestState(isStream, None, None, None, None, None, None, None, 0, None, 0, FullyObserved, None, false)
  }

  /** `get_or_insert`. */
  function OrInsert(o: Option<nat>, x: nat): Option<nat> { if o.Some? then o else Some(x) }

  /** `saturating_sub` of two non-negative times; the code's i64 version would only differ below zero. */
  function Elapsed(from: nat, to: nat): nat { if to >= from then to - from else 0 }

  function RecordContent(s: RequestState, ms: nat, phase: Phase): RequestState {
    s.(maxGap := if s.lastContent.Some? then Some(Max(s.maxGap.GetOr(0), Elapsed(s.lastContent.value, ms))) else s.maxGap,
       lastContent := Some(ms), firstContent := OrInsert(s.firstContent, ms),
       firstText := if phase == TextPhase then OrInsert(s.firstText, ms) else s.firstText,
       contentBatches := if s.lastContentBatch != Some(s.batch) then s.contentBatches + 1 else s.contentBatches,
       lastContentBatch := Some(s.batch))
  }

  /** One call on the monitor with the elapsed time it reads. */
  function Apply(s: RequestState, call: MonitorCall, ms: nat): RequestState {
    if s.finished then s
    else
      match call
      case BytesSeen => s.(batch := s.batch + 1, firstByte := OrInsert(s.firstByte, ms))
      case Observed(ContentBlock(Content(phase))) => RecordContent(s, ms, phase)
      case Observed(ContentBlock(UnknownContent)) => s.(quality := Partial)
      case Observed(MessageStop) => s.(modelCompleted := Some(ms))
      case Observed(ErrorEvent) => s.(outcome := Some(StreamErrorOutcome))
      case Observed(_) => s
      case ObservedBody(body) => if body.isMessage then s.(modelCompleted := Some(ms)) else s
      case ParseFailed => s.(quality := ParseFailure)
  }

  /** The completed event: the snapshot at the finish, with the idle tail counted as a gap. */
  function Completed(s: RequestState, ms: nat, aborted: bool): RequestState {
    var age := s.duration.GetOr(ms);
    var end := s.modelCompleted.GetOr(age);
    var gap := if s.lastContent.Some? then Some(Max(s.maxGap.GetOr(0), Elapsed(s.lastContent.value, end))) else s.maxGap;
    var outcome :=
      if s.outcome.Some? then s.outcome.value
      else if aborted then Aborted
      else if s.quality == ParseFailure then Unknown
      else if s.modelCompleted.Some? then Succeeded
      else if s.isStream then Incomplete
      else Unknown;
    s.(duration := Some(age), maxGap := gap, outcome := Some(outcome), finished := true)
  }

  /** `failure`: the first recorded outcome stays. */
  function Fail(s: RequestState, outcome: Outcome): RequestState {
    if s.finished || s.outcome.Some? then s else s.(outcome := Some(outcome))
  }

  function Replay(isStream: bool, calls: seq<MonitorCall>, times: seq<nat>): RequestState
    requires |times| == |calls|
  {
    if calls == [] then RequestStart(isStream)
    else Apply(Replay(isStream, calls[..|calls| - 1], times[..|calls| - 1]), calls[|calls| - 1], times[|calls| - 1])
  }

  predicate Ascending(times: seq<nat>) { forall i, j :: 0 <= i < j < |times| ==> times[i] <= times[j] }

  // ---- the calls an observer makes ----

  /** Bytes come before anything is read from them, and nothing is read after the end of the message. */
  predicate Disciplined(calls: seq<MonitorCall>) {
    calls == []
    || (var front, last := calls[..|calls| - 1], calls[|calls| - 1];
        && Disciplined(front)
        && (last.Observed? || last.ObservedBody? ==> BytesSeen in front)
        && (last.Observed? ==> Observed(MessageStop) !in front))
  }

  predicate IsContent(call: MonitorCall) { call.Observed? && call.event.ContentBlock? && call.event.content.Content? }

  /** The times at which content was read. */
  function ContentTimes(calls: seq<MonitorCall>, times: seq<nat>): seq<nat>
    requires |times| == |calls|
  {
    if calls == [] then []
    else
      var n := |calls| - 1;
      ContentTimes(calls[..n], times[..n]) + (if IsContent(calls[n]) then [times[n]] else [])
  }

  /** The number of the byte batch the last call belongs to. */
  function BatchOf(calls: seq<MonitorCall>): nat {
    if calls == [] then 0
    else BatchOf(calls[..|calls| - 1]) + (if calls[|calls| - 1] == BytesSeen then 1 else 0)
  }

  /** The batches in which content was read. */
  function ContentBatches(calls: seq<MonitorCall>): set<nat> {
    if calls == [] then {}
    else
      var n := |calls| - 1;
      ContentBatches(calls[..n]) + (if IsContent(calls[n]) then {BatchOf(calls[..n])} else {})
  }

  /** g is the largest difference of neighbours. */
  ghost predicate LargestGap(ts: seq<nat>, g: nat) {
    && (forall i :: 0 < i < |ts| ==> ts[i] - ts[i - 1] <= g)
    && (g == 0 || exists i :: 0 < i < |ts| && ts[i] == ts[i - 1] + g)
  }

  predicate NotAfter(a: Option<nat>, b: Option<nat>) { a.Some? && b.Some? ==> a.value <= b.value }

  /** Every time is at most the last reading, and each milestone at most the next. */
  predicate TimesTracked(s: RequestState, bytesSeen: bool, now: nat) {
    && !s.finished && s.duration.None?
    && (s.firstByte.Some? <==> bytesSeen)
    && (s.firstContent.Some? ==> s.firstByte.Some?) && (s.firstText.Some? ==> s.firstContent.Some?)
    && (s.firstContent.Some? <==> s.lastContent.Some?)
    && (s.modelCompleted.Some? ==> s.firstByte.Some?)
    && NotAfter(s.firstByte, s.firstContent) && NotAfter(s.firstContent, s.firstText)
    && NotAfter(s.firstByte, s.modelCompleted) && NotAfter(s.firstByte, Some(now)) && NotAfter(s.modelCompleted, Some(now))
    && NotAfter(s.firstContent, s.lastContent) && NotAfter(s.firstText, s.lastContent) && NotAfter(s.lastContent, Some(now))
  }

  /** The stored gap is the largest between neighbouring content times. */
  ghost predicate GapsTracked(s: RequestState, content: seq<nat>) {
    && (s.lastContent.Some? <==> content != [])
    && (content != [] ==> s.lastContent.value == content[|content| - 1])
    && LargestGap(content, s.maxGap.GetOr(0))
    && (s.maxGap.Some? ==> content != [])
  }

  /** Batches with content are counted once each. */
  predicate BatchesTracked(s: RequestState, batch: nat, batches: set<nat>) {
    && s.batch == batch && s.contentBatches == |batches|
    && match s.lastContentBatch
       case None => batches == {}
       case Some(last) => last in batches && last <= batch && forall b :: b in batches ==> b <= last
  }

  /** Streaming logs: the end of the message is the last thing read, so content never follows it. */
  predicate StreamTracked(s: RequestState, stopped: bool) {
    && (s.modelCompleted.Some? ==> stopped)
    && NotAfter(s.lastContent, s.modelCompleted)
  }

  predicate EventsOnly(calls: seq<MonitorCall>) { forall i :: 0 <= i < |calls| ==> !calls[i].ObservedBody? }

  lemma LargestGapGrows(ts: seq<nat>, g: nat, t: nat)
    requires LargestGap(ts, g) && (ts != [] ==> ts[|ts| - 1] <= t)
    ensures LargestGap(ts + [t], if ts == [] then g else Max(g, Elapsed(ts[|ts| - 1], t)))
  {
    var all := ts + [t];
    assert forall i :: 0 <= i < |ts| ==> all[i] == ts[i];
    if ts != [] && g < Elapsed(ts[|ts| - 1], t) {
      assert all[|ts|] == all[|ts| - 1] + Elapsed(ts[|ts| - 1], t);
    } else if g != 0 {
      var i :| 0 < i < |ts| && ts[i] == ts[i - 1] + g;
      assert all[i] == all[i - 1] + g;
    }
  }

  lemma TimesStep(s: RequestState, bytesSeen: bool, call: MonitorCall, ms: nat, before: nat)
    requires TimesTracked(s, bytesSeen, before) && before <= ms
    requires call.Observed? || call.ObservedBody? ==> bytesSeen
    ensures TimesTracked(Apply(s, call, ms), bytesSeen || call == BytesSeen, ms)
  {}

  lemma GapsStep(s: RequestState, content: seq<nat>, call: MonitorCall, ms: nat)
    requires !s.finished && GapsTracked(s, content) && NotAfter(s.lastContent, Some(ms))
    ensures GapsTracked(Apply(s, call, ms), content + (if IsContent(call) then [ms] else []))
  {
    hide LargestGap;
    if IsContent(call) {
      LargestGapGrows(content, s.maxGap.GetOr(0), ms);
    } else {
      assert content + [] == content;
    }
  }

  /** What a call does to the fields that count batches. */
  lemma BatchFields(s: RequestState, call: MonitorCall, ms: nat)
    requires !s.finished
    ensures var t := Apply(s, call, ms);
            && !t.finished && t.batch == s.batch + (if call == BytesSeen then 1 else 0)
            && (if IsContent(call) then t.lastContentBatch == Some(s.batch) else t.lastContentBatch == s.lastContentBatch)
            && t.contentBatches == s.contentBatches + (if IsContent(call) && s.lastContentBatch != Some(s.batch) then 1 else 0)
  {}

  lemma BatchesStep(s: RequestState, batch: nat, batches: set<nat>, call: MonitorCall, ms: nat)
    requires !s.finished && BatchesTracked(s, batch, batches)
    ensures !Apply(s, call, ms).finished
    ensures BatchesTracked(Apply(s, call, ms), if call == BytesSeen then batch + 1 else batch,
                           batches + (if IsContent(call) then {batch} else {}))
  {
    BatchFields(s, call, ms);
    hide Apply;
    if IsContent(call) {
      if s.lastContentBatch == Some(batch) {
        assert batches + {batch} == batches;
      } else {
        assert batch !in batches;
        assert |batches + {batch}| == |batches| + 1;
      }
    } else {
      assert batches + {} == batches;
    }
  }

  lemma StreamStep(s: RequestState, stopped: bool, call: MonitorCall, ms: nat)
    requires !s.finished && StreamTracked(s, stopped) && NotAfter(s.lastContent, Some(ms))
    requires !call.ObservedBody? && (call.Observed? ==> !stopped)
    ensures StreamTracked(Apply(s, call, ms), stopped || call == Observed(MessageStop))
  {}

  lemma {:induction false} ReplayTimes(isStream: bool, calls: seq<MonitorCall>, times: seq<nat>)
    requires |times| == |calls| && Ascending(times) && Disciplined(calls)
    ensures TimesTracked(Replay(isStream, calls, times), BytesSeen in calls, if times == [] then 0 else times[|times| - 1])
  {
    if calls != [] {
      var n := |calls| - 1;
      var front, call, ms := calls[..n], calls[n], times[n];
      ReplayTimes(isStream, front, times[..n]);
      assert call.Observed? || call.ObservedBody? ==> BytesSeen in front;
      hide Apply, TimesTracked, Disciplined;
      assert calls == front + [call];
      TimesStep(Replay(isStream, front, times[..n]), BytesSeen in front, call, ms, if n == 0 then 0 else times[n - 1]);
    }
  }

  lemma {:induction false} ReplayGaps(isStream: bool, calls: seq<MonitorCall>, times: seq<nat>)
    requires |times| == |calls| && Ascending(times) && Disciplined(calls)
    ensures GapsTracked(Replay(isStream, calls, times), ContentTimes(calls, times))
  {
    if calls != [] {
      var n := |calls| - 1;
      var front, call, ms := calls[..n], calls[n], times[n];
      ReplayGaps(isStream, front, times[..n]);
      ReplayTimes(isStream, front, times[..n]);
      LastContentInTime(Replay(isStream, front, times[..n]), BytesSeen in front, if n == 0 then 0 else times[n - 1], ms);
      hide Apply, GapsTracked, TimesTracked, IsContent;
      GapsStep(Replay(isStream, front, times[..n]), ContentTimes(front, times[..n]), call, ms);
    }
  }

  lemma {:induction false} ReplayBatches(isStream: bool, calls: seq<MonitorCall>, times: seq<nat>)
    requires |times| == |calls|
    ensures BatchesTracked(Replay(isStream, calls, times), BatchOf(calls), ContentBatches(calls))
    ensures !Replay(isStream, calls, times).finished
  {
    if calls != [] {
      var n := |calls| - 1;
      ReplayBatches(isStream, calls[..n], times[..n]);
      hide Apply, BatchesTracked, IsContent;
      BatchesStep(Replay(isStream, calls[..n], times[..n]), BatchOf(calls[..n]), ContentBatches(calls[..n]), calls[n], times[n]);
    }
  }

  lemma LastContentInTime(s: RequestState, bytesSeen: bool, before: nat, ms: nat)
    requires TimesTracked(s, bytesSeen, before) && before <= ms
    ensures !s.finished && NotAfter(s.lastContent, Some(ms))
  {}

  lemma {:induction false} ReplayStreamTracked(isStream: bool, calls: seq<MonitorCall>, times: seq<nat>)
    requires |times| == |calls| && Ascending(times) && Disciplined(calls) && EventsOnly(calls)
    ensures StreamTracked(Replay(isStream, calls, times), Observed(MessageStop) in calls)
  {
    if calls != [] {
      var n := |calls| - 1;
      var front, call, ms := calls[..n], calls[n], times[n];
      ReplayStreamTracked(isStream, front, times[..n]);
      ReplayTimes(isStream, front, times[..n]);
      assert !call.ObservedBody? && (call.Observed? ==> Observed(MessageStop) !in front);
      hide Apply, TimesTracked, GapsTracked, BatchesTracked, StreamTracked, IsContent, ContentTimes, ContentBatches, BatchOf, Disciplined;
      assert front + [call] == calls;
      var s, before := Replay(isStream, front, times[..n]), if n == 0 then 0 else times[n - 1];
      LastContentInTime(s, BytesSeen in front, before, ms);
      StreamStep(s, Observed(MessageStop) in front, call, ms);
    }
  }

  /** first_byte <= first_content <= first_text <= model_completed <= duration wherever both are present;
      a text was content, and content came in bytes. */
  ghost predicate Ordered(e: RequestState) {
    && e.duration.Some?
    && (e.firstText.Some? ==> e.firstContent.Some?) && (e.firstContent.Some? ==> e.firstByte.Some?)
    && (e.modelCompleted.Some? ==> e.firstByte.Some?)
    && NotAfter(e.firstByte, e.firstContent) && NotAfter(e.firstContent, e.firstText)
    && NotAfter(e.firstText, e.modelCompleted) && NotAfter(e.firstContent, e.modelCompleted)
    && NotAfter(e.firstByte, e.modelCompleted)
    && NotAfter(e.modelCompleted, e.duration) && NotAfter(e.firstText, e.duration) && NotAfter(e.firstContent, e.duration)
    && NotAfter(e.firstByte, e.duration)
  }

  /** The event of a request whose monitor saw these calls and then finished at `end`. */
  lemma StreamMilestones(isStream: bool, calls: seq<MonitorCall>, times: seq<nat>, end: nat, aborted: bool)
    requires |times| == |calls| && Ascending(times) && Disciplined(calls) && EventsOnly(calls)
    requires times != [] ==> times[|times| - 1] <= end
    ensures var e := Completed(Replay(isStream, calls, times), end, aborted);
            var content := ContentTimes(calls, times);
            && Ordered(e)
            && e.contentBatches == |ContentBatches(calls)|
            && (if content == [] then e.maxGap.None?
                else e.maxGap.Some? && LargestGap(content + [e.modelCompleted.GetOr(end)], e.maxGap.value))
  {
    var s := Replay(isStream, calls, times);
    ReplayTimes(isStream, calls, times);
    ReplayGaps(isStream, calls, times);
    ReplayBatches(isStream, calls, times);
    ReplayStreamTracked(isStream, calls, times);
    var content := ContentTimes(calls, times);
    if content != [] { LargestGapGrows(content, s.maxGap.GetOr(0), s.modelCompleted.GetOr(end)); }
  }

  // ---- every observer run makes disciplined calls ----

  /** One parser state follows another: events are only added, and none after the end of the message. */
  ghost predicate Grows(p: ParserState, q: ParserState) {
    match p
    case Sse(s) => q.Sse? && (SseValid(s) ==> SseValid(q.sse)) && s.observed <= q.sse.observed
                   && (SseValid(s) && MessageStop in s.observed ==> q.sse.observed == s.observed)
    case Json(s) => q.Json? && s.observed <= q.json.observed
  }

  lemma ProcessGrows(decode: EventDecoder, s: SseState, line: Bytes)
    ensures s.observed <= ProcessLine(decode, s, line).observed
  {
    hide ApplyEvent, Payload;
    var data := Payload(line);
    if data.Some? && decode(data.value).Some? {
      var event := decode(data.value).value;
      ApplyEventObserves(s.(line := [], observed := s.observed + [event]), event);
    }
  }

  lemma ApplyEventObserves(s: SseState, event: SseEvent)
    ensures ApplyEvent(s, event).observed == s.observed
  {}

  lemma {:induction false} SseFeedGrows(decode: EventDecoder, s: SseState, bytes: Bytes)
    ensures s.observed <= SseFeed(decode, s, bytes).observed
  {
    if bytes != [] {
      var t := SseFeed(decode, s, bytes[..|bytes| - 1]);
      SseFeedGrows(decode, s, bytes[..|bytes| - 1]);
      ProcessGrows(decode, t, t.line);
    }
  }

  lemma FeedGrows(env: Env, p: ParserState, bytes: Bytes)
    ensures Grows(p, ParserFeed(env, p, bytes))
  {
    if p.Sse? {
      SseFeedGrows(env.event, p.sse, bytes);
      if SseValid(p.sse) {
        SseFeedValid(env.event, p.sse, bytes);
        if p.sse.complete { SseFeedStopped(env.event, p.sse, bytes); }
      }
    }
  }

  lemma FinishGrows(env: Env, p: ParserState)
    ensures Grows(p, ParserFinish(env, p))
  {
    if p.Sse? {
      ProcessGrows(env.event, p.sse, p.sse.line);
      if SseValid(p.sse) { SseFinishValid(env.event, p.sse); }
    }
  }

  lemma GrowsTransitive(p: ParserState, q: ParserState, r: ParserState)
    requires Grows(p, q) && Grows(q, r)
    ensures Grows(p, r)
  {}

  lemma InflateWriteGrows(env: Env, e: EncodedState, bytes: Bytes, cut: nat)
    requires e.decoder.Inflating?
    ensures Grows(e.parser, InflateWrite(env, e, bytes, cut).parser)
  {
    hide ParserFeed;
    if bytes == [] {
      GrowsReflexive(e.parser);
    } else {
      var out := env.inflater(e.decoder.codec).out(e.decoder.consumed + bytes);
      FeedGrows(env, e.parser, Piece(out, e.decoder.delivered, Reach(e.decoder.delivered, cut, |out|)));
    }
  }

  lemma GrowsReflexive(p: ParserState)
    ensures Grows(p, p)
  {}

  lemma EncodedFeedGrows(env: Env, e: EncodedState, bytes: Bytes, cuts: Cuts)
    ensures Grows(e.parser, EncodedFeed(env, e, bytes, cuts).parser)
  {
    hide ParserFeed, InflateWrite, Grows;
    GrowsReflexive(e.parser);
    FeedGrows(env, e.parser, bytes);
    if e.decoder.Inflating? { InflateWriteGrows(env, e, bytes, cuts.second); }
    if e.decoder.Sniffing? { SniffWriteGrows(env, e, bytes, cuts); }
  }

  lemma SniffWriteGrows(env: Env, e: EncodedState, bytes: Bytes, cuts: Cuts)
    requires e.decoder.Sniffing?
    ensures Grows(e.parser, SniffWrite(env, e, bytes, cuts).parser)
  {
    hide InflateWrite, Grows;
    GrowsReflexive(e.parser);
    var needed := if |e.decoder.prefix| < 2 then 2 - |e.decoder.prefix| else 0;
    var taken := if needed <= |bytes| then needed else |bytes|;
    var prefix := e.decoder.prefix + bytes[..taken];
    if |prefix| >= 2 {
      var started := e.(decoder := Inflating(SniffedCodec(prefix[0], prefix[1]), [], 0));
      var begun := InflateWrite(env, started, prefix, cuts.first);
      InflateWriteGrows(env, started, prefix, cuts.first);
      if !begun.failed {
        assert begun.decoder.Inflating? by { InflateStays(env, started, prefix, cuts.first); }
        InflateWriteGrows(env, begun, bytes[taken..], cuts.second);
        GrowsTransitive(e.parser, begun.parser, InflateWrite(env, begun, bytes[taken..], cuts.second).parser);
      }
    }
  }

  lemma InflateStays(env: Env, e: EncodedState, bytes: Bytes, cut: nat)
    requires e.decoder.Inflating?
    ensures InflateWrite(env, e, bytes, cut).decoder.Inflating?
  {}

  lemma EncodedFinishGrows(env: Env, e: EncodedState, allowIncomplete: bool, cut: nat)
    ensures Grows(e.parser, EncodedFinish(env, e, allowIncomplete, cut).parser)
  {
    hide ParserFeed, ParserFinish, Grows;
    GrowsReflexive(e.parser);
    var q := DecoderFinish(env, e, cut).0;
    if e.decoder.Inflating? {
      var out, truncated := env.inflater(e.decoder.codec).out(e.decoder.consumed), env.inflater(e.decoder.codec).truncated(e.decoder.consumed);
      FeedGrows(env, e.parser, Piece(out, e.decoder.delivered, if truncated then Reach(e.decoder.delivered, cut, |out|) else |out|));
    }
    FinishGrows(env, q);
    GrowsTransitive(e.parser, q, ParserFinish(env, q));
  }

  lemma {:induction false} EventsDisciplined(calls: seq<MonitorCall>, events: seq<SseEvent>)
    requires Disciplined(calls) && (events != [] ==> BytesSeen in calls && Observed(MessageStop) !in calls)
    requires events != [] ==> MessageStop !in events[..|events| - 1]
    ensures Disciplined(calls + EventCalls(events))
    ensures Observed(MessageStop) in calls + EventCalls(events) <==> Observed(MessageStop) in calls || MessageStop in events
  {
    if events == [] {
      assert calls + EventCalls(events) == calls;
    } else {
      var front := events[..|events| - 1];
      assert front != [] ==> MessageStop !in front[..|front| - 1];
      EventsDisciplined(calls, front);
      assert EventCalls(events) == EventCalls(front) + [Observed(events[|events| - 1])];
      var all := calls + EventCalls(events);
      assert all[..|all| - 1] == calls + EventCalls(front);
      assert all == (calls + EventCalls(front)) + [Observed(events[|events| - 1])];
    }
  }

  lemma {:induction false} BodiesDisciplined(calls: seq<MonitorCall>, bodies: seq<JsonBody>)
    requires Disciplined(calls) && (bodies != [] ==> BytesSeen in calls)
    ensures Disciplined(calls + BodyCalls(bodies))
    ensures Observed(MessageStop) in calls + BodyCalls(bodies) <==> Observed(MessageStop) in calls
  {
    if bodies == [] {
      assert calls + BodyCalls(bodies) == calls;
    } else {
      var front := bodies[..|bodies| - 1];
      BodiesDisciplined(calls, front);
      assert BodyCalls(bodies) == BodyCalls(front) + [ObservedBody(bodies[|bodies| - 1])];
      var all := calls + BodyCalls(bodies);
      assert all[..|all| - 1] == calls + BodyCalls(front);
      assert all == (calls + BodyCalls(front)) + [ObservedBody(bodies[|bodies| - 1])];
    }
  }

  lemma OneMoreCall(calls: seq<MonitorCall>, call: MonitorCall)
    requires Disciplined(calls) && (call == BytesSeen || call == ParseFailed)
    ensures Disciplined(calls + [call])
    ensures EventsOnly(calls) ==> EventsOnly(calls + [call])
    ensures Observed(MessageStop) in calls + [call] <==> Observed(MessageStop) in calls
  {
    assert (calls + [call])[..|calls|] == calls;
  }

  /** What the log of a monitored observer satisfies at every point of every run. */
  ghost predicate LogKept(o: ObserverState, streaming: bool, encoding: Encoding) {
    && o.monitored && o.encoded.parser.Sse? == streaming
    && Disciplined(o.calls)
    && (streaming ==> EventsOnly(o.calls) && SseValid(o.encoded.parser.sse))
    && (Observed(MessageStop) in o.calls <==> streaming && MessageStop in o.encoded.parser.sse.observed)
    && (BytesSeen !in o.calls ==> o.encoded == EncodedStart(streaming, encoding))
    && (o.encoded.decoder.Sniffing? ==> |o.encoded.decoder.prefix| < 2)
  }

  /** The parser growing from p to q adds its observations to a disciplined log. */
  lemma ObservationsDisciplined(calls: seq<MonitorCall>, p: ParserState, q: ParserState)
    requires Disciplined(calls) && Grows(p, q) && (p.Sse? ==> SseValid(p.sse))
    requires Observed(MessageStop) in calls <==> p.Sse? && MessageStop in p.sse.observed
    requires NewObservations(p, q) != [] ==> BytesSeen in calls
    ensures Disciplined(calls + NewObservations(p, q))
    ensures Observed(MessageStop) in calls + NewObservations(p, q) <==> q.Sse? && MessageStop in q.sse.observed
    ensures p.Sse? && EventsOnly(calls) ==> EventsOnly(calls + NewObservations(p, q))
  {
    if p.Sse? {
      var events := q.sse.observed[|p.sse.observed|..];
      assert q.sse.observed == p.sse.observed + events;
      if events != [] {
        assert events[..|events| - 1] == q.sse.observed[..|q.sse.observed| - 1][|p.sse.observed|..];
      }
      EventsDisciplined(calls, events);
    } else {
      BodiesDisciplined(calls, q.json.observed[|p.json.observed|..]);
    }
  }

  /** The log after one recording. */
  lemma RecordedDisciplined(o: ObserverState, e: EncodedState, bytes: Bytes)
    requires o.monitored && Disciplined(o.calls) && Grows(o.encoded.parser, e.parser)
    requires o.encoded.parser.Sse? ==> SseValid(o.encoded.parser.sse)
    requires Observed(MessageStop) in o.calls <==> o.encoded.parser.Sse? && MessageStop in o.encoded.parser.sse.observed
    requires NewObservations(o.encoded.parser, e.parser) != [] ==> bytes != [] || BytesSeen in o.calls
    ensures var calls := Recorded(o, e, bytes).calls;
            && Disciplined(calls)
            && (o.encoded.parser.Sse? && EventsOnly(o.calls) ==> EventsOnly(calls))
            && (Observed(MessageStop) in calls <==> e.parser.Sse? && MessageStop in e.parser.sse.observed)
            && (bytes != [] ==> BytesSeen in calls)
            && (BytesSeen in o.calls ==> BytesSeen in calls)
  {
    hide Disciplined, Grows, NewObservations, Rejected, SseValid, EventsOnly;
    var seen := if bytes != [] then o.calls + [BytesSeen] else o.calls;
    OneMoreCall(o.calls, BytesSeen);
    assert BytesSeen in o.calls + [BytesSeen];
    var shown := seen + NewObservations(o.encoded.parser, e.parser);
    ObservationsDisciplined(seen, o.encoded.parser, e.parser);
    OneMoreCall(shown, ParseFailed);
    assert BytesSeen in seen ==> BytesSeen in shown && BytesSeen in shown + [ParseFailed];
    RecordedCalls(o, e, bytes);
  }

  lemma RecordedCalls(o: ObserverState, e: EncodedState, bytes: Bytes)
    requires o.monitored
    ensures var seen := if bytes != [] then o.calls + [BytesSeen] else o.calls;
            var shown := seen + NewObservations(o.encoded.parser, e.parser);
            Recorded(o, e, bytes).calls == if Rejected(e) then shown + [ParseFailed] else shown
  {
    hide NewObservations, Rejected;
  }

  lemma RecordedKept(o: ObserverState, streaming: bool, encoding: Encoding, e: EncodedState, bytes: Bytes)
    requires LogKept(o, streaming, encoding) && Grows(o.encoded.parser, e.parser)
    requires bytes == [] ==> e == o.encoded
    requires e.decoder.Sniffing? ==> |e.decoder.prefix| < 2
    ensures LogKept(Recorded(o, e, bytes), streaming, encoding)
  {
    hide Grows, NewObservations, EncodedStart, Rejected, SseValid, Disciplined;
    NothingNew(o.encoded.parser);
    GrowsKeepsKind(o.encoded.parser, e.parser);
    RecordedDisciplined(o, e, bytes);
    assert Recorded(o, e, bytes).encoded == e && Recorded(o, e, bytes).monitored;
  }

  lemma NothingNew(p: ParserState)
    ensures NewObservations(p, p) == []
  {}

  lemma GrowsKeepsKind(p: ParserState, q: ParserState)
    requires Grows(p, q) && (p.Sse? ==> SseValid(p.sse))
    ensures p.Sse? == q.Sse? && (q.Sse? ==> SseValid(q.sse))
  {}

  lemma SettleKeepsLog(o: ObserverState, terminal: bool, dropped: bool)
    ensures var f := Finalize(o, terminal, dropped);
            f.calls == o.calls && f.encoded == o.encoded && f.monitored == o.monitored
  {}

  lemma EmptyFeedChangesNothing(env: Env, e: EncodedState, cuts: Cuts)
    requires e.decoder.Sniffing? ==> |e.decoder.prefix| < 2
    ensures EncodedFeed(env, e, [], cuts) == e
  {
    if e.decoder.Sniffing? { assert e.decoder.prefix + [] == e.decoder.prefix; }
  }

  lemma FeedKeepsSniffing(env: Env, e: EncodedState, bytes: Bytes, cuts: Cuts)
    requires e.decoder.Sniffing? ==> |e.decoder.prefix| < 2
    ensures var d := EncodedFeed(env, e, bytes, cuts).decoder; d.Sniffing? ==> |d.prefix| < 2
  {
    hide ParserFeed;
  }

  /** With no byte fed, the finish of a decoder at rest shows nothing. */
  lemma EmptyFinishShowsNothing(env: Env, streaming: bool, encoding: Encoding, dropped: bool, cut: nat)
    requires ValidEnv(env)
    ensures var e := EncodedStart(streaming, encoding);
            NewObservations(e.parser, EncodedFinish(env, e, dropped, cut).parser) == []
  {
    var e := EncodedStart(streaming, encoding);
    if encoding.CodecCoding? { assert Incremental(env.inflater(encoding.codec)); }
    ParserFeedNothing(env, ParserStart(streaming));
    assert DecoderFinish(env, e, cut).0 == ParserStart(streaming);
    assert ParserFinish(env, ParserStart(streaming)) == ParserStart(streaming);
  }

  lemma FeedKeepsLog(env: Env, o: ObserverState, streaming: bool, encoding: Encoding, bytes: Bytes, cuts: Cuts)
    requires LogKept(o, streaming, encoding)
    ensures LogKept(ObserverFeed(env, o, bytes, cuts), streaming, encoding)
  {
    hide EncodedFeed, Recorded, Finalize, Grows, NewObservations, EncodedStart, SseValid;
    var e := EncodedFeed(env, o.encoded, bytes, cuts);
    EncodedFeedGrows(env, o.encoded, bytes, cuts);
    FeedKeepsSniffing(env, o.encoded, bytes, cuts);
    if bytes == [] { EmptyFeedChangesNothing(env, o.encoded, cuts); }
    RecordedKept(o, streaming, encoding, e, bytes);
    SettleKeepsLog(Recorded(o, e, bytes), false, false);
  }

  /** The log after the finish; nothing is fed any more. */
  ghost predicate LogClosed(o: ObserverState, streaming: bool) {
    o.monitored && Disciplined(o.calls) && (streaming ==> EventsOnly(o.calls))
  }

  lemma FinishClosesLog(env: Env, o: ObserverState, streaming: bool, encoding: Encoding, dropped: bool, cut: nat)
    requires ValidEnv(env) && LogKept(o, streaming, encoding)
    ensures LogClosed(ObserverFinish(env, o, dropped, cut), streaming)
  {
    hide EncodedFinish, Grows, NewObservations, EncodedStart, SseValid, Rejected, Finalize, Recorded, Disciplined;
    var e := EncodedFinish(env, o.encoded, dropped, cut);
    EncodedFinishGrows(env, o.encoded, dropped, cut);
    EmptyFinishShowsNothing(env, streaming, encoding, dropped, cut);
    RecordedDisciplined(o, e, []);
    SettleKeepsLog(Recorded(o, e, []), true, dropped);
    assert Recorded(o, e, []).monitored by { RecordedMonitored(o, e, []); }
  }

  lemma RecordedMonitored(o: ObserverState, e: EncodedState, bytes: Bytes)
    ensures Recorded(o, e, bytes).monitored == o.monitored
  {}

  lemma KeptIsClosed(o: ObserverState, streaming: bool, encoding: Encoding)
    requires LogKept(o, streaming, encoding)
    ensures LogClosed(o, streaming)
  {}

  lemma StartKept(streaming: bool, encoding: Encoding)
    ensures LogKept(ObserverStart(streaming, encoding, true), streaming, encoding)
  {}

  lemma {:induction false} RunKeepsLog(env: Env, streaming: bool, encoding: Encoding, events: seq<StreamEvent>)
    requires ValidEnv(env)
    ensures var s := Run(env, StreamStart(streaming, encoding, true), events);
            LogClosed(s.observer, streaming) && (s.live ==> LogKept(s.observer, streaming, encoding))
  {
    hide LogKept, LogClosed, ObserverFeed, ObserverFinish, ObserverStart;
    if events == [] {
      StartKept(streaming, encoding);
      KeptIsClosed(ObserverStart(streaming, encoding, true), streaming, encoding);
    } else {
      var front, last := events[..|events| - 1], events[|events| - 1];
      RunKeepsLog(env, streaming, encoding, front);
      var s := Run(env, StreamStart(streaming, encoding, true), front);
      if s.live {
        match last
        case Pending =>
        case Chunk(bytes, cuts) =>
          FeedKeepsLog(env, s.observer, streaming, encoding, bytes, cuts);
          KeptIsClosed(ObserverFeed(env, s.observer, bytes, cuts), streaming, encoding);
        case StreamError(cut) => FinishClosesLog(env, s.observer, streaming, encoding, false, cut);
        case EndOfStream(cut) => FinishClosesLog(env, s.observer, streaming, encoding, false, cut);
        case Dropped(cut) => FinishClosesLog(env, s.observer, streaming, encoding, true, cut);
      }
    }
  }

  lemma {:induction false} PrefixDisciplined(calls: seq<MonitorCall>, n: nat)
    requires n <= |calls| && Disciplined(calls)
    ensures Disciplined(calls[..n])
    decreases |calls|
  {
    if n < |calls| {
      PrefixDisciplined(calls[..|calls| - 1], n);
      assert calls[..|calls| - 1][..n] == calls[..n];
    } else {
      assert calls[..n] == calls;
    }
  }

  /** Every streamed response, however it was encoded, cut, aborted or dropped: if its monitor finished after the
      first n calls of the observer, the stored milestones are in order, the stored gap is the largest one
      including the tail, and the batches with content are counted once each. */
  lemma ObservedStreamMilestones(env: Env, encoding: Encoding, events: seq<StreamEvent>, n: nat,
                                 times: seq<nat>, end: nat, aborted: bool)
    requires ValidEnv(env)
    requires n <= |Run(env, StreamStart(true, encoding, true), events).observer.calls|
    requires |times| == n && Ascending(times) && (times != [] ==> times[n - 1] <= end)
    ensures var calls := Run(env, StreamStart(true, encoding, true), events).observer.calls[..n];
            var e, content := Completed(Replay(true, calls, times), end, aborted), ContentTimes(calls, times);
            && Ordered(e)
            && e.contentBatches == |ContentBatches(calls)|
            && (if content == [] then e.maxGap.None?
                else e.maxGap.Some? && LargestGap(content + [e.modelCompleted.GetOr(end)], e.maxGap.value))
  {
    var calls := Run(env, StreamStart(true, encoding, true), events).observer.calls;
    RunKeepsLog(env, true, encoding, events);
    PrefixDisciplined(calls, n);
    assert EventsOnly(calls[..n]);
    StreamMilestones(true, calls[..n], times, end, aborted);
  }

  /** A response that is not streamed shows when its bytes came and when its message was complete, in this order. */
  lemma ObservedBodyMilestones(env: Env, encoding: Encoding, events: seq<StreamEvent>, n: nat,
                               times: seq<nat>, end: nat, aborted: bool)
    requires ValidEnv(env)
    requires n <= |Run(env, StreamStart(false, encoding, true), events).observer.calls|
    requires |times| == n && Ascending(times) && (times != [] ==> times[n - 1] <= end)
    ensures var e := Completed(Replay(false, Run(env, StreamStart(false, encoding, true), events).observer.calls[..n], times), end, aborted);
            && e.duration == Some(end) && (e.modelCompleted.Some? ==> e.firstByte.Some?)
            && NotAfter(e.firstByte, e.modelCompleted) && NotAfter(e.modelCompleted, Some(end)) && NotAfter(e.firstByte, Some(end))
  {
    var calls := Run(env, StreamStart(false, encoding, true), events).observer.calls;
    RunKeepsLog(env, false, encoding, events);
    PrefixDisciplined(calls, n);
    ReplayTimes(false, calls[..n], times);
  }

  // ---- the monitored request as it runs ----

  class RequestMonitor {
    var isStream: bool
    var firstByte: Option<nat>
    var firstContent: Option<nat>
    var firstText: Option<nat>
    var modelCompleted: Option<nat>
    var duration: Option<nat>
    var maxGap: Option<nat>
    var lastContent: Option<nat>
    var batch: nat
    var lastContentBatch: Option<nat>
    var contentBatches: nat
    var quality: Quality
    var outcome: Option<Outcome>
    var finished: bool

    function State(): RequestState
      reads this
    {
      RequestState(isStream, firstByte, firstContent, firstText, modelCompleted, duration, maxGap, lastContent, batch,
                   lastContentBatch, contentBatches, quality, outcome, finished)
    }

    constructor (isStream: bool)
      ensures State() == RequestStart(isStream)
    {
      this.isStream := isStream;
      firstByte, firstContent, firstText, modelCompleted, duration := None, None, None, None, None;
      maxGap, lastContent, batch, lastContentBatch, contentBatches := None, None, 0, None, 0;
      quality, outcome, finished := FullyObserved, None, false;
    }

    method Update(call: MonitorCall, ms: nat)
      modifies this
      ensures State() == Apply(old(State()), call, ms)
    {
      if finished { return; }
      match call {
        case BytesSeen =>
          batch := batch + 1;
          if firstByte.None? { firstByte := Some(ms); }
        case Observed(ContentBlock(Content(phase))) => AddContent(ms, phase);
        case Observed(ContentBlock(UnknownContent)) => quality := Partial;
        case Observed(MessageStop) => modelCompleted := Some(ms);
        case Observed(ErrorEvent) => outcome := Some(StreamErrorOutcome);
        case Observed(_) =>
        case ObservedBody(body) => if body.isMessage { modelCompleted := Some(ms); }
        case ParseFailed => quality := ParseFailure;
      }
    }

    method AddContent(ms: nat, phase: Phase)
      modifies this
      ensures State() == RecordContent(old(State()), ms, phase)
    {
      if lastContent.Some? { maxGap := Some(Max(maxGap.GetOr(0), Elapsed(lastContent.value, ms))); }
      lastContent := Some(ms);
      if firstContent.None? { firstContent := Some(ms); }
      if phase == TextPhase && firstText.None? { firstText := Some(ms); }
      if lastContentBatch != Some(batch) {
        contentBatches := contentBatches + 1;
        lastContentBatch := Some(batch);
      }
    }

    method RecordFailure(failure: Outcome)
      modifies this
      ensures State() == Fail(old(State()), failure)
    {
      if !finished && outcome.None? { outcome := Some(failure); }
    }

    /** The part of a guard's finish that completes the event. */
    method Complete(ms: nat, aborted: bool)
      modifies this
      ensures State() == Completed(old(State()), ms, aborted)
    {
      var age := duration.GetOr(ms);
      if lastContent.Some? { maxGap := Some(Max(maxGap.GetOr(0), Elapsed(lastContent.value, modelCompleted.GetOr(age)))); }
      duration := Some(age);
      if outcome.None? {
        if aborted { outcome := Some(Aborted); }
        else if quality == ParseFailure { outcome := Some(Unknown); }
        else if modelCompleted.Some? { outcome := Some(Succeeded); }
        else if isStream { outcome := Some(Incomplete); }
        else { outcome := Some(Unknown); }
      }
      finished := true;
    }
  }
}
