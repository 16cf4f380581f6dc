/** What the parsers read (src/service/usage.rs), said of the lines, events and bodies themselves. */
module UsageReading {
  import opened Wrappers
  import opened Numeric
  import opened UsageModel
  import opened UsageParsing
  import opened ResponseObserver

  datatype Component = Input | Output | CacheCreation5m | CacheCreation1h | CacheRead

  function PatchPart(p: UsagePatch, c: Component): Option<i64> {
    match c
    case Input => p.input case Output => p.output case CacheCreation5m => p.cacheCreation5m
    case CacheCreation1h => p.cacheCreation1h case CacheRead => p.cacheRead
  }

  function TokenPart(t: UsageTokens, c: Component): i64 {
    match c
    case Input => t.input case Output => t.output case CacheCreation5m => t.cacheCreation5m
    case CacheCreation1h => t.cacheCreation1h case CacheRead => t.cacheRead
  }

  function CounterIn(u: UsageField, c: Component): Option<i64> { if u.Usage? then PatchPart(u.patch, c) else None }

  // ---- what an event carries ----

  function UsageIn(event: SseEvent): UsageField {
    match event case MessageStart(Some(m)) => m.usage case MessageDelta(_, usage) => usage case _ => NoUsage
  }

  function IdIn(event: SseEvent): Option<string> { match event case MessageStart(Some(m)) => m.id case _ => None }
  function ModelIn(event: SseEvent): Option<string> { match event case MessageStart(Some(m)) => m.model case _ => None }
  function ReasonIn(event: SseEvent): Option<string> { match event case MessageDelta(reason, _) => reason case _ => None }

  function Each<T>(events: seq<SseEvent>, carried: SseEvent -> Option<T>): seq<Option<T>> {
    seq(|events|, i requires 0 <= i < |events| => carried(events[i]))
  }

  lemma OneMoreEvent<T>(events: seq<SseEvent>, event: SseEvent, carried: SseEvent -> Option<T>)
    ensures Latest(Each(events + [event], carried)) == Or(carried(event), Latest(Each(events, carried)))
  {
    assert Each(events + [event], carried)[..|events|] == Each(events, carried);
  }

  predicate CarriesUsage(event: SseEvent) { exists c: Component :: CounterIn(UsageIn(event), c).Some? }

  /** An event that ends the reading with a rejection. */
  predicate Unusable(event: SseEvent) { event == MessageStart(None) || UsageIn(event).BadUsage? }

  /** Counters, identity and stop reason are the last ones some event carried. */
  ghost predicate Digest(s: SseState) {
    && (forall c: Component :: TokenPart(s.tokens, c) == Latest(Each(s.observed, event => CounterIn(UsageIn(event), c))).GetOr(0))
    && s.messageId == Latest(Each(s.observed, IdIn)) && s.model == Latest(Each(s.observed, ModelIn))
    && s.stopReason == Latest(Each(s.observed, ReasonIn))
    && (s.hasUsage <==> exists k :: 0 <= k < |s.observed| && CarriesUsage(s.observed[k]))
  }

  lemma PatchCarries(p: UsagePatch, t: UsageTokens, c: Component)
    ensures TokenPart(p.Apply(t), c) == PatchPart(p, c).GetOr(TokenPart(t, c))
    ensures p.HasAny() <==> exists d: Component :: CounterIn(Usage(p), d).Some?
  {
    if p.HasAny() {
      assert CounterIn(Usage(p), Input).Some? || CounterIn(Usage(p), Output).Some? || CounterIn(Usage(p), CacheCreation5m).Some?
             || CounterIn(Usage(p), CacheCreation1h).Some? || CounterIn(Usage(p), CacheRead).Some?;
    }
  }

  /** One event's effect on the fields. */
  lemma EventCarries(s: SseState, event: SseEvent, c: Component)
    ensures var t := ApplyEvent(s, event);
            && TokenPart(t.tokens, c) == CounterIn(UsageIn(event), c).GetOr(TokenPart(s.tokens, c))
            && t.messageId == Or(IdIn(event), s.messageId) && t.model == Or(ModelIn(event), s.model)
            && t.stopReason == Or(ReasonIn(event), s.stopReason)
            && (t.hasUsage <==> s.hasUsage || CarriesUsage(event))
            && (t.invalid <==> s.invalid || Unusable(event)) && (t.complete <==> s.complete || event == MessageStop)
            && t.observed == s.observed && t.oversize == s.oversize && t.line == s.line
  {
    hide UsagePatch.Apply, UsagePatch.HasAny, PatchPart, TokenPart, CarriesUsage, ApplyUsage;
    UsageCarries(s.(stopReason := Or(ReasonIn(event), s.stopReason), messageId := Or(IdIn(event), s.messageId),
                    model := Or(ModelIn(event), s.model)), UsageIn(event), c);
    CarryingMeans(event);
  }

  lemma CarryingMeans(event: SseEvent)
    ensures CarriesUsage(event) <==> exists d: Component :: CounterIn(UsageIn(event), d).Some?
  {}

  lemma UsageCarries(s: SseState, usage: UsageField, c: Component)
    ensures var t := ApplyUsage(s, usage);
            && TokenPart(t.tokens, c) == CounterIn(usage, c).GetOr(TokenPart(s.tokens, c))
            && t == s.(tokens := t.tokens, hasUsage := t.hasUsage, invalid := s.invalid || usage.BadUsage?)
            && (t.hasUsage <==> s.hasUsage || exists d: Component :: CounterIn(usage, d).Some?)
  {
    if usage.Usage? { PatchCarries(usage.patch, s.tokens, c); }
    hide UsagePatch.Apply, UsagePatch.HasAny, PatchPart, TokenPart;
  }

  lemma ReadOne(s: SseState, event: SseEvent)
    requires Digest(s)
    ensures Digest(ApplyEvent(s.(observed := s.observed + [event]), event))
  {
    hide ApplyEvent, CounterIn, UsageIn, IdIn, ModelIn, ReasonIn, TokenPart, CarriesUsage, Each, Latest, Unusable;
    var seen := s.(observed := s.observed + [event]);
    var t := ApplyEvent(seen, event);
    forall c: Component
      ensures TokenPart(t.tokens, c) == Latest(Each(t.observed, e => CounterIn(UsageIn(e), c))).GetOr(0)
    {
      EventCarries(seen, event, c);
      OneMoreEvent(s.observed, event, e => CounterIn(UsageIn(e), c));
      assert TokenPart(s.tokens, c) == Latest(Each(s.observed, e => CounterIn(UsageIn(e), c))).GetOr(0);
    }
    EventCarries(seen, event, Input);
    OneMoreEvent(s.observed, event, IdIn);
    OneMoreEvent(s.observed, event, ModelIn);
    OneMoreEvent(s.observed, event, ReasonIn);
    assert seen.observed[|s.observed|] == event;
    assert forall k :: 0 <= k < |s.observed| ==> seen.observed[k] == s.observed[k];
  }

  // ---- what a text shows ----

  /** `data:`, at most one space, the payload, at most one carriage return: read back as the payload. Anything that
      does not begin with `data:` has none. */
  lemma PayloadIsWhatFollows(line: Bytes, space: bool, payload: Bytes, withReturn: bool)
    requires space || payload == [] || payload[0] != 32
    requires withReturn || payload == [] || payload[|payload| - 1] != 13
    ensures Payload([100, 97, 116, 97, 58] + (if space then [32] else []) + payload + (if withReturn then [13] else [])) == Some(payload)
    ensures (|line| < 5 || line[..5] != [100, 97, 116, 97, 58]) ==> Payload(line) == None
  {
    var data: Bytes, gap: Bytes, end: Bytes := [100, 97, 116, 97, 58], if space then [32] else [], if withReturn then [13] else [];
    var text := data + gap + payload;
    assert StripReturn(text + end) == text;
    assert text[..5] == data && text[5..] == gap + payload;
    if space { assert text[6..] == payload; }
    if |line| >= 5 && line[..5] != data && |StripReturn(line)| >= 5 { assert StripReturn(line)[..5] == line[..5]; }
  }

  /** The payloads of the data lines, without empty ones and the `[DONE]` marker. */
  function DataOf(lines: seq<Bytes>): seq<Bytes> {
    if lines == [] then []
    else
      var data := Payload(lines[0]);
      (if data.Some? && data.value != [] && data.value != [91, 68, 79, 78, 69, 93] then [data.value] else []) + DataOf(lines[1..])
  }

  predicate Ends(event: SseEvent) { event == MessageStop || Unusable(event) }

  /** The events read from the payloads: each decodes from the payload in its place, the first that ends the reading is
      the last, and the flags say how it ended. */
  ghost predicate ReadsAs(decode: EventDecoder, data: seq<Bytes>, events: seq<SseEvent>, complete: bool, invalid: bool, oversize: bool) {
    && |events| <= |data| && (forall k :: 0 <= k < |events| ==> decode(data[k]) == Some(events[k]))
    && (forall k :: 0 <= k < |events| - 1 ==> !Ends(events[k]))
    && (complete <==> events != [] && events[|events| - 1] == MessageStop)
    && (invalid <==> || oversize || (events != [] && Unusable(events[|events| - 1]))
                     || (!complete && |events| < |data| && decode(data[|events|]) == None))
    && (!complete && !invalid ==> |events| == |data|)
  }

  lemma ReadsOneFirst(decode: EventDecoder, first: Bytes, event: SseEvent, data: seq<Bytes>, events: seq<SseEvent>,
                      complete: bool, invalid: bool, oversize: bool)
    requires ReadsAs(decode, data, events, complete, invalid, oversize) && decode(first) == Some(event) && !Ends(event)
    ensures ReadsAs(decode, [first] + data, [event] + events, complete, invalid, oversize)
  {
    hide Unusable;
    var all, more := [event] + events, [first] + data;
    assert forall k :: 0 < k < |all| ==> all[k] == events[k - 1] && more[k] == data[k - 1];
    assert |events| < |data| ==> more[|all|] == data[|events|];
    assert events != [] ==> all[|all| - 1] == events[|events| - 1];
  }

  predicate TooLong(lines: seq<Bytes>, tail: Bytes) { |tail| > 256 * 1024 || exists k :: 0 <= k < |lines| && |lines[k]| > 256 * 1024 }

  /** Reading lines adds the events of their payloads, in order and up to the first end, and nothing else; a line or
      tail beyond 256 KiB rejects the text; an unfinished tail waits. */
  lemma {:induction false} LinesRead(decode: EventDecoder, s: SseState, lines: seq<Bytes>, tail: Bytes)
    requires !s.Stopped() && !s.oversize && s.line == []
    ensures var t := FoldLines(decode, s, lines, tail);
            && s.observed <= t.observed
            && ReadsAs(decode, DataOf(lines), t.observed[|s.observed|..], t.complete, t.invalid, t.oversize)
            && (t.oversize ==> TooLong(lines, tail)) && (!t.Stopped() ==> t.line == tail && !TooLong(lines, tail))
    decreases |lines|
  {
    hide Payload, ApplyEvent, ReadsAs, Unusable;
    var t := FoldLines(decode, s, lines, tail);
    if lines == [] || |lines[0]| > SSE_LINE_LIMIT {
      NothingRead(decode, DataOf(lines), lines == [] && |tail| <= SSE_LINE_LIMIT);
      assert t.observed[|s.observed|..] == [];
    } else {
      var s1, rest := ProcessLine(decode, s, lines[0]), lines[1..];
      OneLineRead(decode, s, lines[0]);
      var data := Payload(lines[0]);
      assert TooLong(lines, tail) <==> TooLong(rest, tail) by {
        assert forall k :: 0 < k < |lines| ==> lines[k] == rest[k - 1];
        assert forall k :: 0 <= k < |rest| ==> rest[k] == lines[k + 1];
      }
      if data.None? || data.value == [] || data.value == DONE {
        assert s1 == s && DataOf(lines) == DataOf(rest);
        LinesRead(decode, s, rest, tail);
      } else if decode(data.value).None? {
        Undecodable(decode, DataOf(lines));
        assert t.observed[|s.observed|..] == [];
      } else {
        var event := decode(data.value).value;
        if Ends(event) {
          ReadsLast(decode, DataOf(lines), event);
          assert t.observed[|s.observed|..] == [event];
        } else {
          LinesRead(decode, s1, rest, tail);
          ReadsOneFirst(decode, data.value, event, DataOf(rest), t.observed[|s1.observed|..], t.complete, t.invalid, t.oversize);
          assert t.observed[|s.observed|..] == [event] + t.observed[|s1.observed|..];
        }
      }
    }
  }

  lemma NothingRead(decode: EventDecoder, data: seq<Bytes>, noLines: bool)
    ensures noLines && data == [] ==> ReadsAs(decode, data, [], false, false, false)
    ensures ReadsAs(decode, data, [], false, true, true)
  {}

  lemma Undecodable(decode: EventDecoder, data: seq<Bytes>)
    requires data != [] && decode(data[0]) == None
    ensures ReadsAs(decode, data, [], false, true, false)
  {}

  lemma ReadsLast(decode: EventDecoder, data: seq<Bytes>, event: SseEvent)
    requires data != [] && decode(data[0]) == Some(event) && Ends(event)
    ensures ReadsAs(decode, data, [event], event == MessageStop, Unusable(event), false)
  {}

  lemma OneLineRead(decode: EventDecoder, s: SseState, line: Bytes)
    requires !s.Stopped() && !s.oversize
    ensures var t, data := ProcessLine(decode, s, line), Payload(line);
            if data.None? || data.value == [] || data.value == [91, 68, 79, 78, 69, 93] then t == s.(line := [])
            else
              && t.line == [] && !t.oversize
              && match decode(data.value)
                 case None => t.invalid && !t.complete && t.observed == s.observed
                 case Some(event) => t.observed == s.observed + [event] && t.invalid == Unusable(event) && t.complete == (event == MessageStop)
  {
    hide Payload, Unusable;
    var data := Payload(line);
    if data.Some? && decode(data.value).Some? {
      EventCarries(s.(line := [], observed := s.observed + [decode(data.value).value]), decode(data.value).value, Input);
    }
    hide ApplyEvent;
  }

  lemma {:induction false} LinesDigest(decode: EventDecoder, s: SseState, lines: seq<Bytes>, tail: Bytes)
    requires Digest(s)
    ensures Digest(FoldLines(decode, s, lines, tail))
    decreases |lines|
  {
    hide Digest, Payload, ApplyEvent;
    if !s.Stopped() && lines != [] && |lines[0]| <= SSE_LINE_LIMIT {
      var data := Payload(lines[0]);
      LineKeepsDigest(s, s.(line := []));
      if data.Some? && decode(data.value).Some? { ReadOne(s.(line := []), decode(data.value).value); }
      LineKeepsDigest(s, s.(line := [], invalid := true));
      LinesDigest(decode, ProcessLine(decode, s, lines[0]), lines[1..], tail);
    } else {
      LineKeepsDigest(s, FoldLines(decode, s, lines, tail));
    }
  }

  lemma LineKeepsDigest(s: SseState, t: SseState)
    requires Digest(s) && t == s.(line := t.line, invalid := t.invalid, oversize := t.oversize, complete := t.complete)
    ensures Digest(t)
  {
    hide Latest, Each, TokenPart, CarriesUsage;
  }

  /** Finishing reads the tail as one more line. */
  lemma {:induction false} FinishIsOneMoreLine(decode: EventDecoder, s: SseState, lines: seq<Bytes>, tail: Bytes)
    requires s.line == []
    ensures SseFinish(decode, FoldLines(decode, s, lines, tail)) == FoldLines(decode, s, lines + [tail], [])
    decreases |lines|
  {
    hide ProcessLine;
    if !s.Stopped() {
      if lines == [] {
        assert [] + [tail] == [tail];
        EmptyLine(decode, s);
        SameAfterTheLine(decode, s, tail);
      } else if |lines[0]| <= SSE_LINE_LIMIT {
        ProcessLineClears(decode, s, lines[0]);
        FinishIsOneMoreLine(decode, ProcessLine(decode, s, lines[0]), lines[1..], tail);
        assert (lines + [tail])[1..] == lines[1..] + [tail];
      }
    }
  }

  lemma EmptyLine(decode: EventDecoder, s: SseState)
    ensures ProcessLine(decode, s, []) == s.(line := [])
  {}

  lemma SameAfterTheLine(decode: EventDecoder, s: SseState, line: Bytes)
    ensures ProcessLine(decode, s.(line := line), line) == ProcessLine(decode, s, line) && ProcessLine(decode, s, line).line == []
  {}

  lemma NothingReadYet()
    ensures Digest(SSE_START)
  {}

  /** The whole reading of a streamed text, cut in any way: which events it shows, how the reading ends, and that every
      counter, the identity and the stop reason are the last ones those events carried. */
  lemma StreamReading(decode: EventDecoder, lines: seq<Bytes>, tail: Bytes)
    requires LineFree(tail) && forall k :: 0 <= k < |lines| ==> LineFree(lines[k])
    ensures var t := SseFinish(decode, SseFeed(decode, SSE_START, Join(lines, tail)));
            && Digest(t)
            && ReadsAs(decode, DataOf(lines + [tail]), t.observed, t.complete, t.invalid, t.oversize)
            && (t.oversize ==> TooLong(lines + [tail], [])) && (!t.Stopped() ==> !TooLong(lines + [tail], []))
  {
    hide FoldLines, ReadsAs, Digest, DataOf, TooLong;
    FeedIsFoldOfLines(decode, SSE_START, lines, tail);
    FinishIsOneMoreLine(decode, SSE_START, lines, tail);
    LinesRead(decode, SSE_START, lines + [tail], []);
    NothingReadYet();
    LinesDigest(decode, SSE_START, lines + [tail], []);
    assert SSE_START.observed == [];
  }

  // ---- what a settlement submits ----

  /** A streamed body that is submitted carries, for every counter, the last value its events carried, else zero, and the
      last id, model and stop reason; one that is not rejected is submitted exactly when some event carried a counter. */
  lemma SubmittedSays(env: Env, encoding: Encoding, body: Bytes, c: Component)
    ensures var verdict, events := SettlementOf(env, true, encoding, body), ShownBy(env, encoding, body);
            && (verdict != WithoutUsage(true, false)
                ==> (verdict.Submitted? <==> exists k :: 0 <= k < |events| && CarriesUsage(events[k])))
            && (verdict.Submitted? ==>
                  && TokenPart(verdict.usage.tokens, c) == Latest(Each(events, event => CounterIn(UsageIn(event), c))).GetOr(0)
                  && verdict.usage.messageId == Latest(Each(events, IdIn)) && verdict.usage.model == Latest(Each(events, ModelIn))
                  && verdict.usage.stopReason == Latest(Each(events, ReasonIn)) && verdict.usage.hasUsage && !verdict.dropped)
  {
    hide DecodedBody, SettlementOf, ShownBy, SseFeed, SseFinish, Each, Latest, TokenPart, CarriesUsage, CounterIn, UsageIn;
    var decoded := DecodedBody(env, encoding, body);
    if decoded.Some? {
      var lines, tail := EveryInputSplits(decoded.value);
      StreamReading(env.event, lines, tail);
      SettledFrom(env, encoding, body, decoded.value);
    } else {
      SettledFromNothing(env, encoding, body);
    }
  }

  lemma SettledFrom(env: Env, encoding: Encoding, body: Bytes, text: Bytes)
    requires DecodedBody(env, encoding, body) == Some(text)
    ensures var t := SseFinish(env.event, SseFeed(env.event, SSE_START, text));
            && ShownBy(env, encoding, body) == t.observed
            && SettlementOf(env, true, encoding, body)
               == if t.invalid then WithoutUsage(true, false)
                  else if t.hasUsage then Submitted(ParsedUsage(t.messageId, t.model, t.tokens, t.stopReason, true), false)
                  else WithoutUsage(false, false)
  {
    hide DecodedBody, SseFeed, ProcessLine;
  }

  lemma SettledFromNothing(env: Env, encoding: Encoding, body: Bytes)
    requires DecodedBody(env, encoding, body) == None
    ensures SettlementOf(env, true, encoding, body) == WithoutUsage(true, false)
  {}

  // ---- buffered JSON ----

  /** What a JSON body within the limit is read as: an undecodable one or one with unusable usage is rejected; any other
      gives its own id, model, stop reason and counters, missing counters being zero. */
  lemma JsonSays(decode: BodyDecoder, bytes: Bytes, c: Component)
    ensures var t := JsonFinish(decode, JsonFeed(JSON_START, bytes));
            if |bytes| > 16 * 1024 * 1024 then t.invalid && t.oversize && t.parsed == None
            else if bytes == [] then !t.invalid && t.parsed == None
            else
              match decode(bytes)
              case None => t.invalid && !t.oversize && t.parsed == None
              case Some(body) =>
                && (t.invalid <==> body.usage.BadUsage?) && !t.oversize && t.observed == [body] && (t.parsed.Some? <==> !t.invalid)
                && (t.parsed.Some? ==>
                      && t.parsed.value.messageId == body.id && t.parsed.value.model == body.model
                      && t.parsed.value.stopReason == body.stopReason
                      && TokenPart(t.parsed.value.tokens, c) == CounterIn(body.usage, c).GetOr(0)
                      && (t.parsed.value.hasUsage <==> exists d: Component :: CounterIn(body.usage, d).Some?))
  {
    if bytes != [] && decode(bytes).Some? && decode(bytes).value.usage.Usage? {
      PatchCarries(decode(bytes).value.usage.patch, NO_TOKENS, c);
    }
    assert [] + bytes == bytes;
    hide UsagePatch.Apply, UsagePatch.HasAny, PatchPart;
  }

  /** And what is submitted for such a body. */
  lemma JsonSettles(env: Env, encoding: Encoding, body: Bytes)
    ensures var text := DecodedBody(env, encoding, body);
            SettlementOf(env, false, encoding, body)
            == if text.None? then WithoutUsage(true, false)
               else
                 var t := JsonFinish(env.body, JsonFeed(JSON_START, text.value));
                 if t.invalid then WithoutUsage(true, false)
                 else if t.parsed.Some? && t.parsed.value.hasUsage then Submitted(t.parsed.value, false)
                 else WithoutUsage(false, false)
  {
    hide DecodedBody;
  }

  // ---- other ends of a stream ----

  /** A transport error settles what has come so far as a normal end would. */
  lemma ErrorEndsLikeTheEnd(env: Env, streaming: bool, encoding: Encoding, monitored: bool, events: seq<StreamEvent>, cut: nat)
    requires ValidEnv(env) && OnlyChunks(events)
    ensures Run(env, StreamStart(streaming, encoding, monitored), events + [StreamError(cut)]).observer.settlements
            == [SettlementOf(env, streaming, encoding, BodyOf(events))]
  {
    hide StreamStart, ObserverFinish, SettlementOf;
    SettlementDependsOnBodyOnly(env, streaming, encoding, monitored, events, cut);
    assert (events + [StreamError(cut)])[..|events|] == events && (events + [EndOfStream(cut)])[..|events|] == events;
  }

  /** Finished early: the message is complete and has usage. */
  predicate SettledEarly(p: ParserState) { Complete(p) && !Invalid(p) && Parsed(p).Some? && Parsed(p).value.hasUsage }

  lemma {:induction false} OpenMeansNotEarly(env: Env, streaming: bool, monitored: bool, events: seq<StreamEvent>)
    requires OnlyChunks(events)
    ensures var o := Run(env, StreamStart(streaming, IdentityCoding, monitored), events).observer;
            PlainParse(o.encoded) && (o.attempt ==> !SettledEarly(o.encoded.parser))
  {
    hide ParserFeed, EncodedFeed, NewObservations;
    if events != [] {
      var front, last := events[..|events| - 1], events[|events| - 1];
      OpenMeansNotEarly(env, streaming, monitored, front);
      if last.Chunk? {
        var e := Run(env, StreamStart(streaming, IdentityCoding, monitored), front).observer.encoded;
        PlainFeed(env, e, last.bytes, last.cuts);
      }
    }
  }

  predicate PlainParse(e: EncodedState) { e.decoder.Identity? && !e.terminalValidation && (e.failed ==> Invalid(e.parser)) }

  lemma PlainFeed(env: Env, e: EncodedState, bytes: Bytes, cuts: Cuts)
    requires PlainParse(e)
    ensures PlainParse(EncodedFeed(env, e, bytes, cuts))
  {
    hide ParserFeed;
  }

  /** A client that goes away leaves a settlement of what had come, marked as dropped unless it had been made before. */
  lemma DropSettles(env: Env, streaming: bool, monitored: bool, events: seq<StreamEvent>, cut: nat)
    requires ValidEnv(env) && OnlyChunks(events)
    ensures var body := BodyOf(events);
            Run(env, StreamStart(streaming, IdentityCoding, monitored), events + [Dropped(cut)]).observer.settlements
            == [SettlementOf(env, streaming, IdentityCoding, body).(dropped := !SettledEarly(ParserFeed(env, ParserStart(streaming), body)))]
  {
    var body, s := BodyOf(events), Run(env, StreamStart(streaming, IdentityCoding, monitored), events);
    assert (events + [Dropped(cut)])[..|events|] == events;
    ChunksInStep(env, streaming, IdentityCoding, monitored, events);
    OpenMeansNotEarly(env, streaming, monitored, events);
    EndSettles(env, streaming, IdentityCoding, s, body, cut);
    var fed := ParserFeed(env, ParserStart(streaming), body);
    if !s.observer.attempt { ParserFeedComplete(env, fed, []); }
    hide ParserFeed, ParserFinish, NewObservations;
  }

  /** The kind of failure counted for a plain body: oversize when its reading is, malformed otherwise, none when it is
      not rejected. */
  lemma FailureKind(env: Env, streaming: bool, monitored: bool, events: seq<StreamEvent>, cut: nat)
    requires ValidEnv(env) && OnlyChunks(events)
    ensures var fed := ParserFeed(env, ParserStart(streaming), BodyOf(events));
            var done := if Invalid(fed) then fed else ParserFinish(env, fed);
            Run(env, StreamStart(streaming, IdentityCoding, monitored), events + [EndOfStream(cut)]).observer.parseFailures
            == if Invalid(done) then [Oversized(done)] else []
  {
    var start := StreamStart(streaming, IdentityCoding, monitored);
    var body, s := BodyOf(events), Run(env, start, events);
    var fed := ParserFeed(env, ParserStart(streaming), body);
    assert (events + [EndOfStream(cut)])[..|events|] == events;
    ChunksInStep(env, streaming, IdentityCoding, monitored, events);
    OpenMeansNotEarly(env, streaming, monitored, events);
    RunAccounted(env, start, events);
    if !s.observer.attempt { ParserFeedComplete(env, fed, []); }
    hide ParserFeed, ParserFinish, NewObservations;
  }

  /** A truncated compressed stream is a failure at its end, but not when the client went away and usage was seen. */
  lemma TruncationIsToleratedOnDrop(env: Env, e: EncodedState, cut: nat)
    requires e.decoder.Inflating? && !e.failed && env.inflater(e.decoder.codec).truncated(e.decoder.consumed)
    ensures EncodedFinish(env, e, false, cut).failed
    ensures EncodedFinish(env, e, true, cut).failed <==> Parsed(e.parser).None?
  {
    hide ParserFeed;
  }

  /** The two header bytes of section 2.2 of RFC 1950: method 8, a window of at most 32 KiB, a multiple of 31. */
  lemma ZlibHeader(first: byte, second: byte)
    ensures SniffedCodec(first, second) == Zlib
            <==> && (256 * first as int + second as int) % 31 == 0
                 && exists window :: 0 <= window <= 7 && first as int == 16 * window + 8
    ensures SniffedCodec(first, second) in {Zlib, RawDeflate}
  {
    assert first as int == 16 * (first as int / 16) + first as int % 16;
  }

  // ---- the monitor sees every chunk ----

  function ChunksOf(events: seq<StreamEvent>): nat {
    if events == [] then 0
    else ChunksOf(events[..|events| - 1]) + (if events[|events| - 1].Chunk? && events[|events| - 1].bytes != [] then 1 else 0)
  }

  function BatchesIn(calls: seq<MonitorCall>): nat {
    if calls == [] then 0 else BatchesIn(calls[..|calls| - 1]) + (if calls[|calls| - 1] == BytesSeen then 1 else 0)
  }

  lemma {:induction false} BatchesAdd(a: seq<MonitorCall>, b: seq<MonitorCall>)
    ensures BatchesIn(a + b) == BatchesIn(a) + BatchesIn(b)
  {
    if b == [] {
      assert a + b == a;
    } else {
      BatchesAdd(a, b[..|b| - 1]);
      assert (a + b)[..|a + b| - 1] == a + b[..|b| - 1];
    }
  }

  lemma {:induction false} ShownIsNoBatch(calls: seq<MonitorCall>)
    requires forall k :: 0 <= k < |calls| ==> calls[k] != BytesSeen
    ensures BatchesIn(calls) == 0
  {
    if calls != [] { ShownIsNoBatch(calls[..|calls| - 1]); }
  }

  lemma RecordedBatches(o: ObserverState, e: EncodedState, bytes: Bytes)
    requires o.monitored
    ensures BatchesIn(Recorded(o, e, bytes).calls) == BatchesIn(o.calls) + (if bytes != [] then 1 else 0)
  {
    var first: seq<MonitorCall> := if bytes != [] then [BytesSeen] else [];
    var shown, last := NewObservations(o.encoded.parser, e.parser), if Rejected(e) then [ParseFailed] else [];
    ShownIsNoBatch(shown);
    ShownIsNoBatch(last);
    BatchesAdd(first + shown, last);
    BatchesAdd(first, shown);
    BatchesAdd(o.calls, first + shown + last);
    assert BatchesIn(first) == |first| by { if bytes != [] { assert first[..0] == []; } }
    hide NewObservations, Rejected;
  }

  /** A monitored response counts every chunk with bytes as a batch, also after it has been settled. */
  lemma {:induction false} EveryChunkIsABatch(env: Env, streaming: bool, encoding: Encoding, events: seq<StreamEvent>)
    requires OnlyChunks(events)
    ensures var s := Run(env, StreamStart(streaming, encoding, true), events);
            s.live && s.observer.monitored && BatchesIn(s.observer.calls) == ChunksOf(events)
  {
    hide EncodedFeed, Recorded, Finalize;
    if events != [] {
      var front, last := events[..|events| - 1], events[|events| - 1];
      EveryChunkIsABatch(env, streaming, encoding, front);
      if last.Chunk? {
        var o := Run(env, StreamStart(streaming, encoding, true), front).observer;
        var fed := Recorded(o, EncodedFeed(env, o.encoded, last.bytes, last.cuts), last.bytes);
        RecordedBatches(o, EncodedFeed(env, o.encoded, last.bytes, last.cuts), last.bytes);
        RecordingKeepsMonitor(o, EncodedFeed(env, o.encoded, last.bytes, last.cuts), last.bytes);
        FinalizingKeepsCalls(fed);
      }
    }
  }

  lemma RecordingKeepsMonitor(o: ObserverState, e: EncodedState, bytes: Bytes)
    ensures Recorded(o, e, bytes).monitored == o.monitored
  {}

  lemma FinalizingKeepsCalls(o: ObserverState)
    ensures Finalize(o, false, false).calls == o.calls && Finalize(o, false, false).monitored == o.monitored
  {}
}
