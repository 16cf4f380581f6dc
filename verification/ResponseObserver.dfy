/** The observer of a response body (src/service/usage.rs): content decoding, parsing and settling each attempt. */
module ResponseObserver {
  import opened Wrappers
  import opened UsageParsing

  // ---- content codings ----

  datatype Codec = Gzip | Zlib | RawDeflate | Brotli | Zstd
  datatype Encoding = IdentityCoding | DeflateCoding | CodecCoding(codec: Codec) | UnsupportedCoding

  /** An incremental decompressor, as a function of all bytes written so far:
      its output, whether it has failed, and whether ending here is an error. */
  datatype Inflater = Inflater(out: Bytes -> Bytes, fails: Bytes -> bool, truncated: Bytes -> bool)

  /** More input only adds output, and failures stay. */
  ghost predicate Incremental(d: Inflater) {
    && d.out([]) == [] && !d.fails([])
    && forall a: Bytes, b: Bytes :: a <= b ==> d.out(a) <= d.out(b) && (d.fails(a) ==> d.fails(b))
  }

  /** Foreign code the observer calls: JSON decoding and the inner decompressors. */
  datatype Env = Env(event: EventDecoder, body: BodyDecoder, inflater: Codec -> Inflater)

  ghost predicate ValidEnv(env: Env) { forall c: Codec :: Incremental(env.inflater(c)) }

  /** The header check of section 2.2 of RFC 1950. */
  predicate LooksLikeZlib(first: byte, second: byte) {
    first as int % 16 == 8 && first as int / 16 <= 7 && (first as int * 256 + second as int) % 31 == 0
  }

  function SniffedCodec(first: byte, second: byte): Codec { if LooksLikeZlib(first, second) then Zlib else RawDeflate }

  // ---- the inner parser ----

  datatype ParserState = Json(json: JsonState) | Sse(sse: SseState)

  function ParserStart(streaming: bool): ParserState { if streaming then Sse(SSE_START) else Json(JSON_START) }

  function ParserFeed(env: Env, p: ParserState, bytes: Bytes): ParserState {
    match p
    case Json(s) => Json(JsonFeed(s, bytes))
    case Sse(s) => Sse(SseFeed(env.event, s, bytes))
  }

  function ParserFinish(env: Env, p: ParserState): ParserState {
    match p
    case Json(s) => Json(JsonFinish(env.body, s))
    case Sse(s) => Sse(SseFinish(env.event, s))
  }

  function Parsed(p: ParserState): Option<ParsedUsage> { if p.Json? then p.json.parsed else SseParsed(p.sse) }
  predicate Complete(p: ParserState) { p.Sse? && p.sse.complete }
  predicate Invalid(p: ParserState) { if p.Json? then p.json.invalid else p.sse.invalid }
  predicate Oversized(p: ParserState) { if p.Json? then p.json.oversize else p.sse.oversize }

  // ---- decoding in front of the parser ----

  datatype DecoderState = Identity | Sniffing(prefix: Bytes) | Inflating(codec: Codec, consumed: Bytes, delivered: nat)

  datatype EncodedState = EncodedState(decoder: DecoderState, parser: ParserState, failed: bool, terminalValidation: bool)

  function EncodedStart(streaming: bool, encoding: Encoding): EncodedState {
    var decoder := match encoding
      case DeflateCoding => Sniffing([])
      case CodecCoding(codec) => Inflating(codec, [], 0)
      case _ => Identity;
    EncodedState(decoder, ParserStart(streaming), encoding.UnsupportedCoding?, !encoding.IdentityCoding?)
  }

  /** How far into its output a decompressor has got when a write or a finish returns; any value may turn up. */
  datatype Cuts = Cuts(first: nat, second: nat)

  function Reach(delivered: nat, cut: nat, available: nat): nat {
    if delivered <= cut <= available then cut else delivered
  }

  function Piece(out: Bytes, from: nat, upTo: nat): Bytes {
    if from <= upTo <= |out| then out[from..upTo] else []
  }

  /** `write_all` on a decompressor: output up to the cut reaches the parser, whose rejection fails the write. */
  function InflateWrite(env: Env, e: EncodedState, bytes: Bytes, cut: nat): EncodedState
    requires e.decoder.Inflating?
  {
    if bytes == [] then e
    else
      var codec, consumed := e.decoder.codec, e.decoder.consumed + bytes;
      var out := env.inflater(codec).out(consumed);
      var upTo := Reach(e.decoder.delivered, cut, |out|);
      var parser := ParserFeed(env, e.parser, Piece(out, e.decoder.delivered, upTo));
      e.(decoder := Inflating(codec, consumed, upTo), parser := parser,
         failed := env.inflater(codec).fails(consumed) || Invalid(parser))
  }

  function SniffWrite(env: Env, e: EncodedState, bytes: Bytes, cuts: Cuts): EncodedState
    requires e.decoder.Sniffing?
  {
    var needed := if |e.decoder.prefix| < 2 then 2 - |e.decoder.prefix| else 0;
    var taken := if needed <= |bytes| then needed else |bytes|;
    var prefix := e.decoder.prefix + bytes[..taken];
    if |prefix| < 2 then e.(decoder := Sniffing(prefix))
    else
      var started := e.(decoder := Inflating(SniffedCodec(prefix[0], prefix[1]), [], 0));
      var begun := InflateWrite(env, started, prefix, cuts.first);
      if begun.failed then begun else InflateWrite(env, begun, bytes[taken..], cuts.second)
  }

  function EncodedFeed(env: Env, e: EncodedState, bytes: Bytes, cuts: Cuts): EncodedState {
    if e.failed then e
    else
      match e.decoder
      case Identity =>
        if bytes == [] then e
        else
          var parser := ParserFeed(env, e.parser, bytes);
          e.(parser := parser, failed := Invalid(parser))
      case Sniffing(_) => SniffWrite(env, e, bytes, cuts)
      case Inflating(_, _, _) => InflateWrite(env, e, bytes, cuts.second)
  }

  /** The decoder's own finish: the parser after any remaining output, and whether it failed. */
  function DecoderFinish(env: Env, e: EncodedState, cut: nat): (ParserState, bool) {
    match e.decoder
    case Identity => (e.parser, false)
    case Sniffing(_) => (e.parser, true)
    case Inflating(codec, consumed, delivered) =>
      var out, truncated := env.inflater(codec).out(consumed), env.inflater(codec).truncated(consumed);
      var parser := ParserFeed(env, e.parser, Piece(out, delivered, if truncated then Reach(delivered, cut, |out|) else |out|));
      (parser, truncated || Invalid(parser))
  }

  function EncodedFinish(env: Env, e: EncodedState, allowIncomplete: bool, cut: nat): EncodedState {
    if e.failed then e
    else
      var (parser, error) := DecoderFinish(env, e, cut);
      if error && !(allowIncomplete && Parsed(e.parser).Some?) then e.(parser := parser, failed := true)
      else e.(parser := ParserFinish(env, parser))
  }

  predicate Rejected(e: EncodedState) { e.failed || Invalid(e.parser) }

  // ---- the observer ----

  datatype Settlement = Submitted(usage: ParsedUsage, dropped: bool) | WithoutUsage(rejected: bool, dropped: bool)

  /** Calls on the request monitor, in order. */
  datatype MonitorCall = BytesSeen | Observed(event: SseEvent) | ObservedBody(body: JsonBody) | ParseFailed

  datatype ObserverState = ObserverState(
    attempt: bool, monitored: bool, encoded: EncodedState, settlements: seq<Settlement>,
    parseFailures: seq<bool>, calls: seq<MonitorCall>)

  function ObserverStart(streaming: bool, encoding: Encoding, monitored: bool): ObserverState {
    ObserverState(true, monitored, EncodedStart(streaming, encoding), [], [], [])
  }

  /** What the parser showed the monitor while it moved from one state to the next. */
  function NewObservations(before: ParserState, after: ParserState): seq<MonitorCall> {
    if before.Sse? && after.Sse? && |before.sse.observed| <= |after.sse.observed| then
      EventCalls(after.sse.observed[|before.sse.observed|..])
    else if before.Json? && after.Json? && |before.json.observed| <= |after.json.observed| then
      BodyCalls(after.json.observed[|before.json.observed|..])
    else []
  }

  function EventCalls(events: seq<SseEvent>): seq<MonitorCall> { seq(|events|, i requires 0 <= i < |events| => Observed(events[i])) }
  function BodyCalls(bodies: seq<JsonBody>): seq<MonitorCall> { seq(|bodies|, i requires 0 <= i < |bodies| => ObservedBody(bodies[i])) }

  function Recorded(o: ObserverState, e: EncodedState, bytes: Bytes): ObserverState {
    var calls := (if bytes != [] then [BytesSeen] else []) + NewObservations(o.encoded.parser, e.parser)
                 + (if Rejected(e) then [ParseFailed] else []);
    o.(encoded := e, calls := o.calls + if o.monitored then calls else [])
  }

  function Settle(o: ObserverState, s: Settlement): ObserverState {
    if o.attempt then o.(attempt := false, settlements := o.settlements + [s]) else o
  }

  function Finalize(o: ObserverState, terminal: bool, dropped: bool): ObserverState {
    var parsed := Parsed(o.encoded.parser);
    if Rejected(o.encoded) then
      Settle(if o.attempt then o.(parseFailures := o.parseFailures + [Oversized(o.encoded.parser)]) else o, WithoutUsage(true, dropped))
    else if parsed.Some? && parsed.value.hasUsage && (terminal || Complete(o.encoded.parser)) then
      Settle(o, Submitted(parsed.value, dropped))
    else if terminal then Settle(o, WithoutUsage(false, dropped))
    else o
  }

  function ObserverFeed(env: Env, o: ObserverState, bytes: Bytes, cuts: Cuts): ObserverState {
    if !o.attempt && !o.monitored then o
    else
      var fed := Recorded(o, EncodedFeed(env, o.encoded, bytes, cuts), bytes);
      if !fed.encoded.failed && Complete(fed.encoded.parser) && !fed.encoded.terminalValidation
      then Finalize(fed, false, false) else fed
  }

  function ObserverFinish(env: Env, o: ObserverState, dropped: bool, cut: nat): ObserverState {
    if !o.attempt && !o.monitored then o
    else Finalize(Recorded(o, EncodedFinish(env, o.encoded, dropped, cut), []), true, dropped)
  }

  // ---- the observed stream ----

  /** What the inner stream yields to one poll, or the drop of the observed stream. */
  datatype StreamEvent =
    | Pending
    | Chunk(bytes: Bytes, cuts: Cuts)
    | StreamError(cut: nat)
    | EndOfStream(cut: nat)
    | Dropped(cut: nat)

  datatype StreamState = StreamState(live: bool, observer: ObserverState)

  function StreamStep(env: Env, s: StreamState, event: StreamEvent): StreamState {
    if !s.live then s
    else
      match event
      case Pending => s
      case Chunk(bytes, cuts) => s.(observer := ObserverFeed(env, s.observer, bytes, cuts))
      case StreamError(cut) => StreamState(false, ObserverFinish(env, s.observer, false, cut))
      case EndOfStream(cut) => StreamState(false, ObserverFinish(env, s.observer, false, cut))
      case Dropped(cut) => StreamState(false, ObserverFinish(env, s.observer, true, cut))
  }

  function Run(env: Env, s: StreamState, events: seq<StreamEvent>): StreamState {
    if events == [] then s else StreamStep(env, Run(env, s, events[..|events| - 1]), events[|events| - 1])
  }

  function StreamStart(streaming: bool, encoding: Encoding, monitored: bool): StreamState {
    StreamState(true, ObserverStart(streaming, encoding, monitored))
  }

  // ---- exactly one settlement ----

  /** Settled once when the attempt is gone, not before; a parse failure is counted with a rejected settlement only. */
  predicate SettledWithAttempt(o: ObserverState) {
    && |o.settlements| == (if o.attempt then 0 else 1)
    && |o.parseFailures| == (if o.settlements != [] && o.settlements[0].WithoutUsage? && o.settlements[0].rejected then 1 else 0)
  }

  predicate Accounted(s: StreamState) { SettledWithAttempt(s.observer) && (!s.live ==> !s.observer.attempt) }

  lemma FinalizeAccounted(o: ObserverState, terminal: bool, dropped: bool)
    requires SettledWithAttempt(o)
    ensures SettledWithAttempt(Finalize(o, terminal, dropped)) && (terminal ==> !Finalize(o, terminal, dropped).attempt)
  {
    hide Parsed, Rejected, Complete, Oversized;
  }

  lemma StepAccounted(env: Env, s: StreamState, event: StreamEvent)
    requires Accounted(s)
    ensures Accounted(StreamStep(env, s, event))
  {
    hide Finalize, EncodedFeed, EncodedFinish, NewObservations, Complete, Rejected;
    match event
    case Pending =>
    case Chunk(bytes, cuts) => FinalizeAccounted(Recorded(s.observer, EncodedFeed(env, s.observer.encoded, bytes, cuts), bytes), false, false);
    case StreamError(cut) => FinalizeAccounted(Recorded(s.observer, EncodedFinish(env, s.observer.encoded, false, cut), []), true, false);
    case EndOfStream(cut) => FinalizeAccounted(Recorded(s.observer, EncodedFinish(env, s.observer.encoded, false, cut), []), true, false);
    case Dropped(cut) => FinalizeAccounted(Recorded(s.observer, EncodedFinish(env, s.observer.encoded, true, cut), []), true, true);
  }

  lemma {:induction false} RunAccounted(env: Env, s: StreamState, events: seq<StreamEvent>)
    requires Accounted(s)
    ensures Accounted(Run(env, s, events))
  {
    if events != [] {
      hide StreamStep, Accounted;
      RunAccounted(env, s, events[..|events| - 1]);
      StepAccounted(env, Run(env, s, events[..|events| - 1]), events[|events| - 1]);
    }
  }

  /** Whatever the stream yields, in whatever order, once it is dropped its attempt has been settled exactly once,
      and nothing that is polled after that settles it again. */
  lemma SettledExactlyOnce(env: Env, streaming: bool, encoding: Encoding, monitored: bool,
                           events: seq<StreamEvent>, cut: nat, later: seq<StreamEvent>)
    ensures var s := Run(env, StreamStart(streaming, encoding, monitored), events + [Dropped(cut)] + later);
            |s.observer.settlements| == 1 && !s.observer.attempt
  {
    var start := StreamStart(streaming, encoding, monitored);
    assert (events + [Dropped(cut)])[..|events|] == events;
    var dropped := Run(env, start, events + [Dropped(cut)]);
    RunAccounted(env, start, events + [Dropped(cut)]);
    RunConcat(env, start, events + [Dropped(cut)], later);
    RunAfterEnd(env, dropped, later);
  }

  lemma {:induction false} RunConcat(env: Env, s: StreamState, a: seq<StreamEvent>, b: seq<StreamEvent>)
    ensures Run(env, s, a + b) == Run(env, Run(env, s, a), b)
  {
    if b == [] {
      assert a + b == a;
    } else {
      RunConcat(env, s, a, b[..|b| - 1]);
      assert (a + b)[..|a + b| - 1] == a + b[..|b| - 1];
    }
  }

  lemma {:induction false} RunAfterEnd(env: Env, s: StreamState, events: seq<StreamEvent>)
    requires !s.live
    ensures Run(env, s, events) == s
  {
    if events != [] { RunAfterEnd(env, s, events[..|events| - 1]); }
  }

  // ---- the settlement is a function of the body ----

  /** The bytes that reach the parser when the body is decoded as a whole, if decoding succeeds. */
  function DecodedBody(env: Env, encoding: Encoding, body: Bytes): Option<Bytes> {
    match encoding
    case IdentityCoding => Some(body)
    case UnsupportedCoding => None
    case CodecCoding(codec) => Inflated(env, codec, body)
    case DeflateCoding => if |body| < 2 then None else Inflated(env, SniffedCodec(body[0], body[1]), body)
  }

  function Inflated(env: Env, codec: Codec, body: Bytes): Option<Bytes> {
    var d := env.inflater(codec);
    if d.fails(body) || d.truncated(body) then None else Some(d.out(body))
  }

  /** Decode the whole body, parse the whole text, settle. */
  function SettlementOf(env: Env, streaming: bool, encoding: Encoding, body: Bytes): Settlement {
    match DecodedBody(env, encoding, body)
    case None => WithoutUsage(true, false)
    case Some(text) =>
      var fed := ParserFeed(env, ParserStart(streaming), text);
      var done := if Invalid(fed) then fed else ParserFinish(env, fed);
      if Invalid(done) then WithoutUsage(true, false)
      else if Parsed(done).Some? && Parsed(done).value.hasUsage then Submitted(Parsed(done).value, false)
      else WithoutUsage(false, false)
  }

  /** The events the body shows when it is decoded and parsed in one go. */
  function ShownBy(env: Env, encoding: Encoding, body: Bytes): seq<SseEvent> {
    match DecodedBody(env, encoding, body)
    case None => []
    case Some(text) => ParserFinish(env, ParserFeed(env, ParserStart(true), text)).sse.observed
  }

  predicate OnlyChunks(events: seq<StreamEvent>) {
    forall k :: 0 <= k < |events| ==> events[k].Chunk? || events[k].Pending?
  }

  function BodyOf(events: seq<StreamEvent>): Bytes {
    if events == [] then []
    else
      var last := events[|events| - 1];
      BodyOf(events[..|events| - 1]) + (if last.Chunk? then last.bytes else [])
  }

  lemma ParserFeedConcat(env: Env, p: ParserState, a: Bytes, b: Bytes)
    ensures ParserFeed(env, ParserFeed(env, p, a), b) == ParserFeed(env, p, a + b)
  {
    match p
    case Json(s) => JsonFeedConcat(s, a, b);
    case Sse(s) => SseFeedConcat(env.event, s, a, b);
  }

  lemma ParserFeedInvalid(env: Env, p: ParserState, bytes: Bytes)
    requires Invalid(p)
    ensures ParserFeed(env, p, bytes) == p
  {
    if p.Sse? { SseFeedStopped(env.event, p.sse, bytes); }
  }

  lemma ParserFeedComplete(env: Env, p: ParserState, bytes: Bytes)
    requires Complete(p)
    ensures ParserFeed(env, p, bytes) == p && ParserFinish(env, p) == p
  {
    SseFeedStopped(env.event, p.sse, bytes);
  }

  lemma ParserFeedNothing(env: Env, p: ParserState)
    ensures ParserFeed(env, p, []) == p || Invalid(ParserFeed(env, p, [])) || p.Json?
    ensures p == ParserStart(true) || p == ParserStart(false) ==> ParserFeed(env, p, []) == p
  {}

  /** The parser after the first k bytes of a text. */
  function After(env: Env, streaming: bool, text: Bytes, k: nat): ParserState
    requires k <= |text|
  {
    ParserFeed(env, ParserStart(streaming), text[..k])
  }

  /** Some prefix of the output, or the input itself, is bad: the body can only be rejected. */
  ghost predicate Doomed(env: Env, streaming: bool, codec: Codec, body: Bytes) {
    var d := env.inflater(codec);
    d.fails(body) || exists k: nat :: k <= |d.out(body)| && Invalid(After(env, streaming, d.out(body), k))
  }

  lemma DoomedStays(env: Env, streaming: bool, codec: Codec, a: Bytes, b: Bytes)
    requires ValidEnv(env) && a <= b && Doomed(env, streaming, codec, a)
    ensures Doomed(env, streaming, codec, b)
  {
    var d := env.inflater(codec);
    assert Incremental(d);
    if !d.fails(a) {
      var k: nat :| k <= |d.out(a)| && Invalid(After(env, streaming, d.out(a), k));
      assert d.out(b)[..k] == d.out(a)[..k];
      assert After(env, streaming, d.out(b), k) == After(env, streaming, d.out(a), k);
    }
  }

  lemma DoomedIsRejected(env: Env, streaming: bool, codec: Codec, body: Bytes)
    requires Doomed(env, streaming, codec, body)
    ensures Inflated(env, codec, body).None? || Invalid(ParserFeed(env, ParserStart(streaming), Inflated(env, codec, body).value))
  {
    var d := env.inflater(codec);
    if !d.fails(body) {
      var out := d.out(body);
      var k: nat :| k <= |out| && Invalid(After(env, streaming, out, k));
      ParserFeedConcat(env, ParserStart(streaming), out[..k], out[k..]);
      ParserFeedInvalid(env, After(env, streaming, out, k), out[k..]);
      assert out[..k] + out[k..] == out;
    }
  }

  /** What the decoder and parser know after the bytes `c`, however they were cut. */
  ghost predicate Tracks(env: Env, streaming: bool, encoding: Encoding, e: EncodedState, c: Bytes) {
    && e.terminalValidation == !encoding.IdentityCoding?
    && match encoding
       case UnsupportedCoding => e.failed
       case IdentityCoding =>
         e.decoder.Identity? && e.parser == ParserFeed(env, ParserStart(streaming), c) && e.failed == Invalid(e.parser)
       case CodecCoding(codec) => TracksCodec(env, streaming, codec, e, c)
       case DeflateCoding =>
         if |c| < 2 then e.decoder == Sniffing(c) && e.parser == ParserStart(streaming) && !e.failed
         else TracksCodec(env, streaming, SniffedCodec(c[0], c[1]), e, c)
  }

  ghost predicate TracksCodec(env: Env, streaming: bool, codec: Codec, e: EncodedState, c: Bytes) {
    && e.decoder.Inflating? && e.decoder.codec == codec
    && if e.failed then Doomed(env, streaming, codec, c) else TracksRunning(env, streaming, codec, e, c)
  }

  ghost predicate TracksRunning(env: Env, streaming: bool, codec: Codec, e: EncodedState, c: Bytes)
    requires e.decoder.Inflating?
  {
    var d := env.inflater(codec);
    && e.decoder.consumed == c && !d.fails(c) && e.decoder.delivered <= |d.out(c)|
    && e.parser == After(env, streaming, d.out(c), e.decoder.delivered) && !Invalid(e.parser)
  }

  lemma TracksStart(env: Env, streaming: bool, encoding: Encoding)
    requires ValidEnv(env)
    ensures Tracks(env, streaming, encoding, EncodedStart(streaming, encoding), [])
  {
    ParserFeedNothing(env, ParserStart(streaming));
    if encoding.CodecCoding? { assert Incremental(env.inflater(encoding.codec)); }
  }

  lemma WriteTracks(env: Env, streaming: bool, codec: Codec, e: EncodedState, c: Bytes, bytes: Bytes, cut: nat)
    requires ValidEnv(env) && !e.failed && TracksCodec(env, streaming, codec, e, c)
    ensures TracksCodec(env, streaming, codec, InflateWrite(env, e, bytes, cut), c + bytes)
    ensures InflateWrite(env, e, bytes, cut).terminalValidation == e.terminalValidation
  {
    if bytes == [] {
      assert c + bytes == c;
    } else {
      var d, after := env.inflater(codec), c + bytes;
      assert Incremental(d) && c <= after;
      var out, from := d.out(after), e.decoder.delivered;
      var upTo := Reach(from, cut, |out|);
      assert d.out(c)[..from] == out[..from];
      ParserFeedConcat(env, ParserStart(streaming), out[..from], out[from..upTo]);
      assert out[..from] + out[from..upTo] == out[..upTo];
      assert InflateWrite(env, e, bytes, cut).parser == After(env, streaming, out, upTo);
    }
  }

  lemma OpenedTracks(env: Env, streaming: bool, codec: Codec, e: EncodedState)
    requires ValidEnv(env) && e.parser == ParserStart(streaming) && !e.failed
    ensures TracksCodec(env, streaming, codec, e.(decoder := Inflating(codec, [], 0)), [])
  {
    assert Incremental(env.inflater(codec));
    ParserFeedNothing(env, ParserStart(streaming));
  }

  lemma SniffTracks(env: Env, streaming: bool, e: EncodedState, c: Bytes, bytes: Bytes, cuts: Cuts)
    requires ValidEnv(env) && |c| < 2 && e.decoder == Sniffing(c) && e.parser == ParserStart(streaming) && !e.failed
    ensures var after, sniffed := c + bytes, SniffWrite(env, e, bytes, cuts);
            sniffed.terminalValidation == e.terminalValidation
            && if |after| < 2 then sniffed.decoder == Sniffing(after) && sniffed.parser == ParserStart(streaming) && !sniffed.failed
               else TracksCodec(env, streaming, SniffedCodec(after[0], after[1]), sniffed, after)
  {
    var after := c + bytes;
    var taken := if 2 - |c| <= |bytes| then 2 - |c| else |bytes|;
    var prefix := c + bytes[..taken];
    if |after| < 2 {
      assert prefix == after;
    } else {
      var codec := SniffedCodec(prefix[0], prefix[1]);
      var started := e.(decoder := Inflating(codec, [], 0));
      OpenedTracks(env, streaming, codec, e);
      WriteTracks(env, streaming, codec, started, [], prefix, cuts.first);
      assert [] + prefix == prefix;
      var begun := InflateWrite(env, started, prefix, cuts.first);
      assert prefix + bytes[taken..] == after;
      if begun.failed {
        DoomedStays(env, streaming, codec, prefix, after);
      } else {
        WriteTracks(env, streaming, codec, begun, prefix, bytes[taken..], cuts.second);
      }
    }
  }

  lemma FeedTracks(env: Env, streaming: bool, encoding: Encoding, e: EncodedState, c: Bytes, bytes: Bytes, cuts: Cuts)
    requires ValidEnv(env) && Tracks(env, streaming, encoding, e, c)
    ensures Tracks(env, streaming, encoding, EncodedFeed(env, e, bytes, cuts), c + bytes)
  {
    if encoding.IdentityCoding? {
      ParserFeedConcat(env, ParserStart(streaming), c, bytes);
      if e.failed { ParserFeedInvalid(env, e.parser, bytes); }
      if bytes == [] { assert c + bytes == c; }
    } else if e.failed {
      if encoding.CodecCoding? { DoomedStays(env, streaming, encoding.codec, c, c + bytes); }
      if encoding.DeflateCoding? { DoomedStays(env, streaming, SniffedCodec(c[0], c[1]), c, c + bytes); }
    } else if encoding.CodecCoding? {
      WriteTracks(env, streaming, encoding.codec, e, c, bytes, cuts.second);
    } else if |c| < 2 {
      SniffTracks(env, streaming, e, c, bytes, cuts);
    } else {
      WriteTracks(env, streaming, SniffedCodec(c[0], c[1]), e, c, bytes, cuts.second);
    }
  }

  /** After the decoder's finish at a normal end, rejection and parser agree with the one-shot reading. */
  lemma FinishTracks(env: Env, streaming: bool, encoding: Encoding, e: EncodedState, body: Bytes, cut: nat)
    requires ValidEnv(env) && Tracks(env, streaming, encoding, e, body)
    ensures var f, text := EncodedFinish(env, e, false, cut), DecodedBody(env, encoding, body);
            if text.None? || Invalid(ParserFeed(env, ParserStart(streaming), text.value)) then Rejected(f)
            else !f.failed && f.parser == ParserFinish(env, ParserFeed(env, ParserStart(streaming), text.value))
  {
    if encoding.CodecCoding? {
      CodecFinishTracks(env, streaming, encoding.codec, e, body, cut);
    } else if encoding.DeflateCoding? && |body| >= 2 {
      CodecFinishTracks(env, streaming, SniffedCodec(body[0], body[1]), e, body, cut);
    }
  }

  lemma CodecFinishTracks(env: Env, streaming: bool, codec: Codec, e: EncodedState, body: Bytes, cut: nat)
    requires ValidEnv(env) && TracksCodec(env, streaming, codec, e, body)
    ensures var f, text := EncodedFinish(env, e, false, cut), Inflated(env, codec, body);
            if text.None? || Invalid(ParserFeed(env, ParserStart(streaming), text.value)) then Rejected(f)
            else !f.failed && f.parser == ParserFinish(env, ParserFeed(env, ParserStart(streaming), text.value))
  {
    if e.failed {
      DoomedIsRejected(env, streaming, codec, body);
    } else {
      var out, from := env.inflater(codec).out(body), e.decoder.delivered;
      ParserFeedConcat(env, ParserStart(streaming), out[..from], out[from..]);
      assert out[..from] + out[from..] == out;
      assert Piece(out, from, |out|) == out[from..];
    }
  }

  /** While only chunks have come: the decoder tracks the body, and an early settlement is the final one. */
  ghost predicate InStep(env: Env, streaming: bool, encoding: Encoding, s: StreamState, c: Bytes) {
    && s.live
    && (s.observer.attempt || s.observer.monitored ==> Tracks(env, streaming, encoding, s.observer.encoded, c))
    && (s.observer.attempt ==> s.observer.settlements == [])
    && (!s.observer.attempt ==>
          && encoding.IdentityCoding?
          && var p := ParserFeed(env, ParserStart(streaming), c);
             Complete(p) && !Invalid(p) && Parsed(p).Some? && Parsed(p).value.hasUsage
             && s.observer.settlements == [Submitted(Parsed(p).value, false)])
  }

  lemma ChunkInStep(env: Env, streaming: bool, encoding: Encoding, s: StreamState, c: Bytes, bytes: Bytes, cuts: Cuts)
    requires ValidEnv(env) && InStep(env, streaming, encoding, s, c)
    ensures InStep(env, streaming, encoding, StreamStep(env, s, Chunk(bytes, cuts)), c + bytes)
  {
    var o := s.observer;
    if o.attempt || o.monitored { FeedTracks(env, streaming, encoding, o.encoded, c, bytes, cuts); }
    if !o.attempt {
      ParserFeedConcat(env, ParserStart(streaming), c, bytes);
      ParserFeedComplete(env, ParserFeed(env, ParserStart(streaming), c), bytes);
    }
    hide EncodedFeed, Tracks, NewObservations, ParserFeed, Parsed;
    if o.attempt && encoding.IdentityCoding? { IdentityTracks(env, streaming, EncodedFeed(env, o.encoded, bytes, cuts), c + bytes); }
    if o.attempt || o.monitored { TracksValidation(env, streaming, encoding, EncodedFeed(env, o.encoded, bytes, cuts), c + bytes); }
  }

  lemma IdentityTracks(env: Env, streaming: bool, e: EncodedState, c: Bytes)
    requires Tracks(env, streaming, IdentityCoding, e, c)
    ensures e.parser == ParserFeed(env, ParserStart(streaming), c) && e.failed == Invalid(e.parser)
  {}

  lemma TracksValidation(env: Env, streaming: bool, encoding: Encoding, e: EncodedState, c: Bytes)
    requires Tracks(env, streaming, encoding, e, c)
    ensures e.terminalValidation == !encoding.IdentityCoding?
  {}

  lemma {:induction false} ChunksInStep(env: Env, streaming: bool, encoding: Encoding, monitored: bool, events: seq<StreamEvent>)
    requires ValidEnv(env) && OnlyChunks(events)
    ensures InStep(env, streaming, encoding, Run(env, StreamStart(streaming, encoding, monitored), events), BodyOf(events))
  {
    if events == [] {
      TracksStart(env, streaming, encoding);
    } else {
      var front, last := events[..|events| - 1], events[|events| - 1];
      ChunksInStep(env, streaming, encoding, monitored, front);
      var s := Run(env, StreamStart(streaming, encoding, monitored), front);
      if last.Chunk? {
        ChunkInStep(env, streaming, encoding, s, BodyOf(front), last.bytes, last.cuts);
      } else {
        assert BodyOf(events) == BodyOf(front);
      }
    }
  }

  lemma EndSettles(env: Env, streaming: bool, encoding: Encoding, s: StreamState, body: Bytes, cut: nat)
    requires ValidEnv(env) && InStep(env, streaming, encoding, s, body)
    ensures StreamStep(env, s, EndOfStream(cut)).observer.settlements == [SettlementOf(env, streaming, encoding, body)]
  {
    var o, fed := s.observer, ParserFeed(env, ParserStart(streaming), body);
    if o.attempt {
      FinishTracks(env, streaming, encoding, o.encoded, body, cut);
    } else {
      ParserFeedComplete(env, fed, []);
    }
    hide EncodedFinish, ParserFeed, ParserFinish, Parsed, NewObservations, Tracks;
  }

  /** Read to a normal end, a body settles as its concatenated bytes say: the way they were cut into chunks,
      the pending polls between them and how eagerly the decompressor handed out its output leave no trace. */
  lemma SettlementDependsOnBodyOnly(env: Env, streaming: bool, encoding: Encoding, monitored: bool, events: seq<StreamEvent>, cut: nat)
    requires ValidEnv(env) && OnlyChunks(events)
    ensures Run(env, StreamStart(streaming, encoding, monitored), events + [EndOfStream(cut)]).observer.settlements
            == [SettlementOf(env, streaming, encoding, BodyOf(events))]
  {
    var s := Run(env, StreamStart(streaming, encoding, monitored), events);
    ChunksInStep(env, streaming, encoding, monitored, events);
    EndSettles(env, streaming, encoding, s, BodyOf(events), cut);
    assert (events + [EndOfStream(cut)])[..|events|] == events;
  }
}
