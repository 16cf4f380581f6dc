/** The observed stream as it runs (src/service/usage.rs): objects updated in place, each step proved
    to be the step of the specification in `ResponseObserver`. */
module ObservedStream {
  import opened Wrappers
  import opened UsageParsing
  import opened R = ResponseObserver

  datatype ResponseParser = JsonResponse(json: JsonParser) | SseResponse(sse: SseParser)

  class EncodedResponseParser {
    const env: Env
    const parser: ResponseParser
    const terminalValidation: bool
    var decoder: DecoderState
    var failed: bool

    ghost function Repr(): set<object> { {this, if parser.JsonResponse? then parser.json as object else parser.sse} }

    ghost predicate Valid() {
      if parser.JsonResponse? then parser.json.decode == env.body else parser.sse.decode == env.event
    }

    function Inner(): ParserState
      reads Repr()
    {
      if parser.JsonResponse? then Json(parser.json.State()) else Sse(parser.sse.State())
    }

    function State(): EncodedState
      reads Repr()
    {
      EncodedState(decoder, Inner(), failed, terminalValidation)
    }

    constructor (env: Env, streaming: bool, encoding: Encoding)
      ensures fresh(Repr()) && Valid() && this.env == env && State() == EncodedStart(streaming, encoding)
    {
      this.env := env;
      if streaming {
        var sse := new SseParser(env.event);
        parser := SseResponse(sse);
      } else {
        var json := new JsonParser(env.body);
        parser := JsonResponse(json);
      }
      terminalValidation := !encoding.IdentityCoding?;
      match encoding {
        case DeflateCoding => decoder := Sniffing([]);
        case CodecCoding(codec) => decoder := Inflating(codec, [], 0);
        case _ => decoder := Identity;
      }
      failed := encoding.UnsupportedCoding?;
    }

    method FeedParser(bytes: Bytes)
      requires Valid()
      modifies Repr() - {this}
      ensures Inner() == ParserFeed(env, old(Inner()), bytes)
    {
      match parser {
        case JsonResponse(json) => json.Feed(bytes);
        case SseResponse(sse) => sse.Feed(bytes);
      }
    }

    method FinishParser()
      requires Valid()
      modifies Repr() - {this}
      ensures Inner() == ParserFinish(env, old(Inner()))
    {
      match parser {
        case JsonResponse(json) => json.Finish();
        case SseResponse(sse) => sse.Finish();
      }
    }

    method WriteInflater(bytes: Bytes, cut: nat)
      requires Valid() && decoder.Inflating? && !failed
      modifies Repr()
      ensures State() == InflateWrite(env, old(State()), bytes, cut)
    {
      if bytes == [] { return; }
      var codec, consumed := decoder.codec, decoder.consumed + bytes;
      var out := env.inflater(codec).out(consumed);
      var upTo := Reach(decoder.delivered, cut, |out|);
      FeedParser(Piece(out, decoder.delivered, upTo));
      decoder := Inflating(codec, consumed, upTo);
      failed := env.inflater(codec).fails(consumed) || Invalid(Inner());
    }

    method FeedSniffing(bytes: Bytes, cuts: Cuts)
      requires Valid() && decoder.Sniffing? && !failed
      modifies Repr()
      ensures State() == SniffWrite(env, old(State()), bytes, cuts)
    {
      var needed := if |decoder.prefix| < 2 then 2 - |decoder.prefix| else 0;
      var taken := if needed <= |bytes| then needed else |bytes|;
      var prefix := decoder.prefix + bytes[..taken];
      if |prefix| < 2 {
        decoder := Sniffing(prefix);
        return;
      }
      decoder := Inflating(SniffedCodec(prefix[0], prefix[1]), [], 0);
      WriteInflater(prefix, cuts.first);
      if !failed { WriteInflater(bytes[taken..], cuts.second); }
    }

    method Feed(bytes: Bytes, cuts: Cuts)
      requires Valid()
      modifies Repr()
      ensures State() == EncodedFeed(env, old(State()), bytes, cuts)
    {
      if failed { return; }
      match decoder {
        case Identity =>
          if bytes != [] {
            FeedParser(bytes);
            failed := Invalid(Inner());
          }
        case Sniffing(_) => FeedSniffing(bytes, cuts);
        case Inflating(_, _, _) => WriteInflater(bytes, cuts.second);
      }
    }

    method FinishDecoder(cut: nat) returns (error: bool)
      requires Valid()
      modifies Repr() - {this}
      ensures (Inner(), error) == DecoderFinish(env, old(State()), cut)
    {
      match decoder {
        case Identity => error := false;
        case Sniffing(_) => error := true;
        case Inflating(codec, consumed, delivered) =>
          var out, truncated := env.inflater(codec).out(consumed), env.inflater(codec).truncated(consumed);
          FeedParser(Piece(out, delivered, if truncated then Reach(delivered, cut, |out|) else |out|));
          error := truncated || Invalid(Inner());
      }
    }

    method Finish(allowIncomplete: bool, cut: nat)
      requires Valid()
      modifies Repr()
      ensures State() == EncodedFinish(env, old(State()), allowIncomplete, cut)
    {
      var usageObserved := Parsed(Inner()).Some?;
      if failed { return; }
      var error := FinishDecoder(cut);
      if error && !(allowIncomplete && usageObserved) {
        failed := true;
      } else {
        FinishParser();
      }
    }
  }

  class Observer {
    const encoded: EncodedResponseParser
    const monitored: bool
    var attempt: bool
    var settlements: seq<Settlement>
    var parseFailures: seq<bool>
    var calls: seq<MonitorCall>

    ghost function Repr(): set<object> { {this} + encoded.Repr() }
    ghost predicate Valid() { encoded.Valid() }

    function State(): ObserverState
      reads Repr()
    {
      ObserverState(attempt, monitored, encoded.State(), settlements, parseFailures, calls)
    }

    constructor (env: Env, streaming: bool, encoding: Encoding, monitored: bool)
      ensures fresh(Repr()) && Valid() && encoded.env == env && State() == ObserverStart(streaming, encoding, monitored)
    {
      encoded := new EncodedResponseParser(env, streaming, encoding);
      this.monitored := monitored;
      attempt, settlements, parseFailures, calls := true, [], [], [];
    }

    method Record(before: ParserState, bytes: Bytes)
      requires Valid()
      modifies `calls
      ensures calls == old(calls)
        + (if monitored then (if bytes != [] then [BytesSeen] else []) + NewObservations(before, encoded.Inner())
                             + (if Rejected(encoded.State()) then [ParseFailed] else []) else [])
    {
      hide NewObservations, Rejected;
      if monitored {
        if bytes != [] { calls := calls + [BytesSeen]; }
        calls := calls + NewObservations(before, encoded.Inner());
        if Rejected(encoded.State()) { calls := calls + [ParseFailed]; }
      }
    }

    /** `attempt.take()` and the call on the service that it guards. */
    method SettleAttempt(s: Settlement)
      requires Valid()
      modifies `attempt, `settlements
      ensures State() == Settle(old(State()), s)
    {
      if attempt {
        attempt := false;
        settlements := settlements + [s];
      }
    }

    method FinalizeAttempt(terminal: bool, dropped: bool)
      requires Valid()
      modifies `attempt, `settlements, `parseFailures
      ensures State() == Finalize(old(State()), terminal, dropped)
    {
      var parsed := Parsed(encoded.Inner());
      if Rejected(encoded.State()) {
        if attempt { parseFailures := parseFailures + [Oversized(encoded.Inner())]; }
        SettleAttempt(WithoutUsage(true, dropped));
      } else if parsed.Some? && parsed.value.hasUsage && (terminal || Complete(encoded.Inner())) {
        SettleAttempt(Submitted(parsed.value, dropped));
      } else if terminal {
        SettleAttempt(WithoutUsage(false, dropped));
      }
    }

    method Feed(bytes: Bytes, cuts: Cuts)
      requires Valid()
      modifies Repr()
      ensures State() == ObserverFeed(encoded.env, old(State()), bytes, cuts)
    {
      hide NewObservations, Rejected, EncodedFeed, Parsed;
      if !attempt && !monitored { return; }
      var before := encoded.Inner();
      encoded.Feed(bytes, cuts);
      Record(before, bytes);
      if !encoded.failed && Complete(encoded.Inner()) && !encoded.terminalValidation {
        FinalizeAttempt(false, false);
      }
    }

    method Finish(dropped: bool, cut: nat)
      requires Valid()
      modifies Repr()
      ensures State() == ObserverFinish(encoded.env, old(State()), dropped, cut)
    {
      hide NewObservations, Rejected, EncodedFinish, Parsed;
      if !attempt && !monitored { return; }
      var before := encoded.Inner();
      encoded.Finish(dropped, cut);
      Record(before, []);
      FinalizeAttempt(true, dropped);
    }
  }

  /** `taken` is whether the observer option has been emptied by `take()`. */
  class UsageObservedStream {
    const observer: Observer
    var taken: bool

    ghost function Repr(): set<object> { {this} + observer.Repr() }
    ghost predicate Valid() { observer.Valid() }
    function Env(): R.Env { observer.encoded.env }

    function State(): StreamState
      reads Repr()
    {
      StreamState(!taken, observer.State())
    }

    constructor (env: R.Env, streaming: bool, encoding: Encoding, monitored: bool)
      ensures fresh(Repr()) && Valid() && Env() == env && State() == StreamStart(streaming, encoding, monitored)
    {
      observer := new Observer(env, streaming, encoding, monitored);
      taken := false;
    }

    /** One poll with what the inner stream yields, or the drop of this stream. */
    method Handle(event: StreamEvent)
      requires Valid()
      modifies Repr()
      ensures State() == StreamStep(Env(), old(State()), event)
    {
      if taken { return; }
      match event {
        case Pending =>
        case Chunk(bytes, cuts) => observer.Feed(bytes, cuts);
        case StreamError(cut) =>
          taken := true;
          observer.Finish(false, cut);
        case EndOfStream(cut) =>
          taken := true;
          observer.Finish(false, cut);
        case Dropped(cut) =>
          taken := true;
          observer.Finish(true, cut);
      }
    }

    static lemma DropEnds(env: R.Env, s: StreamState, cut: nat)
      ensures !StreamStep(env, s, Dropped(cut)).live
    {}

    /** A whole life: any events, then the drop. One settlement comes out of it. */
    method Live(events: seq<StreamEvent>, cut: nat)
      requires Valid() && Accounted(State())
      modifies Repr()
      ensures State() == Run(Env(), old(State()), events + [Dropped(cut)])
      ensures |observer.settlements| == 1 && !observer.attempt
    {
      hide StreamStep, ObserverFeed, ObserverFinish;
      for i := 0 to |events|
        invariant State() == Run(Env(), old(State()), events[..i])
      {
        assert events[..i + 1][..i] == events[..i];
        Handle(events[i]);
      }
      assert (events + [Dropped(cut)])[..|events|] == events[..|events|];
      Handle(Dropped(cut));
      RunAccounted(Env(), old(State()), events + [Dropped(cut)]);
      DropEnds(Env(), Run(Env(), old(State()), events), cut);
    }
  }
}
