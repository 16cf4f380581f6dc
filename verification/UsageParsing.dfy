/** Incremental response parsers (src/service/usage.rs): server-sent events and buffered JSON.
    JSON decoding itself is a parameter: bytes to an optional event or body. */
module UsageParsing {
  import opened Wrappers
  import opened UsageModel
  import opened Numeric

  newtype byte = x: int | 0 <= x < 256
  type Bytes = seq<byte>

  const NEWLINE: byte := 10
  const CARRIAGE_RETURN: byte := 13
  const SPACE: byte := 32
  const DATA_PREFIX: Bytes := [100, 97, 116, 97, 58]            // data:
  const DONE: Bytes := [91, 68, 79, 78, 69, 93]                 // [DONE]
  const SSE_LINE_LIMIT: nat := 256 * 1024
  const JSON_LIMIT: nat := 16 * 1024 * 1024

  // ---- decoded values: the fields the parsers read ----

  datatype UsagePatch = UsagePatch(input: Option<i64>, output: Option<i64>, cacheCreation5m: Option<i64>,
                                   cacheCreation1h: Option<i64>, cacheRead: Option<i64>)
  {
    predicate HasAny() { input.Some? || output.Some? || cacheCreation5m.Some? || cacheCreation1h.Some? || cacheRead.Some? }

    function Apply(t: UsageTokens): UsageTokens {
      UsageTokens(input.GetOr(t.input), output.GetOr(t.output), cacheCreation5m.GetOr(t.cacheCreation5m),
                  cacheCreation1h.GetOr(t.cacheCreation1h), cacheRead.GetOr(t.cacheRead))
    }
  }

  /** The `usage` field: missing, unusable, or a patch of the counters. */
  datatype UsageField = NoUsage | BadUsage | Usage(patch: UsagePatch)

  datatype Phase = TextPhase | ThinkingPhase | ToolPhase

  /** What a content block tells the request monitor. */
  datatype Content = NoContent | Content(phase: Phase) | UnknownContent

  datatype StartMessage = StartMessage(id: Option<string>, model: Option<string>, usage: UsageField)

  datatype SseEvent =
    | MessageStart(message: Option<StartMessage>)
    | MessageDelta(stopReason: Option<string>, usage: UsageField)
    | MessageStop
    | ContentBlock(content: Content)
    | ErrorEvent
    | OtherEvent

  datatype JsonBody = JsonBody(id: Option<string>, model: Option<string>, usage: UsageField, stopReason: Option<string>, isMessage: bool)

  datatype ParsedUsage = ParsedUsage(messageId: Option<string>, model: Option<string>, tokens: UsageTokens,
                                     stopReason: Option<string>, hasUsage: bool)

  // ---- server-sent events: the specification ----

  /** `observed` lists the events handed to the request monitor, in order. */
  datatype SseState = SseState(line: Bytes, messageId: Option<string>, model: Option<string>, tokens: UsageTokens,
                               stopReason: Option<string>, hasUsage: bool, complete: bool, invalid: bool, oversize: bool,
                               observed: seq<SseEvent>)
  {
    predicate Stopped() { invalid || complete }
  }

  const SSE_START := SseState([], None, None, NO_TOKENS, None, false, false, false, false, [])

  type EventDecoder = Bytes -> Option<SseEvent>

  function StripReturn(line: Bytes): Bytes {
    if line != [] && line[|line| - 1] == CARRIAGE_RETURN then line[..|line| - 1] else line
  }

  /** The payload of a `data:` line, without one leading space. */
  function Payload(line: Bytes): Option<Bytes> {
    var text := StripReturn(line);
    if |text| < 5 || text[..5] != DATA_PREFIX then None
    else if |text| > 5 && text[5] == SPACE then Some(text[6..])
    else Some(text[5..])
  }

  function ApplyUsage(s: SseState, usage: UsageField): SseState {
    match usage
    case NoUsage => s
    case BadUsage => s.(invalid := true)
    case Usage(patch) => s.(hasUsage := s.hasUsage || patch.HasAny(), tokens := patch.Apply(s.tokens))
  }

  function ApplyEvent(s: SseState, event: SseEvent): SseState {
    match event
    case MessageStart(None) => s.(invalid := true)
    case MessageStart(Some(m)) =>
      ApplyUsage(s.(messageId := Or(m.id, s.messageId), model := Or(m.model, s.model)), m.usage)
    case MessageDelta(reason, usage) => ApplyUsage(s.(stopReason := Or(reason, s.stopReason)), usage)
    case MessageStop => s.(complete := true)
    case _ => s
  }

  /** `process_line` on the given line, after which the line buffer is cleared. */
  function ProcessLine(decode: EventDecoder, s: SseState, line: Bytes): SseState {
    ProcessCleared(decode, s.(line := []), line)
  }

  function ProcessCleared(decode: EventDecoder, s: SseState, line: Bytes): SseState {
    var data := Payload(line);
    if data.None? || data.value == [] || data.value == DONE then s
    else
      match decode(data.value)
      case None => s.(invalid := true)
      case Some(event) => ApplyEvent(s.(observed := s.observed + [event]), event)
  }

  function Oversize(s: SseState): SseState { s.(line := [], invalid := true, oversize := true) }

  /** One byte. */
  function SseStep(decode: EventDecoder, s: SseState, b: byte): SseState {
    if s.Stopped() then s
    else if b == NEWLINE then ProcessLine(decode, s, s.line)
    else if |s.line| >= SSE_LINE_LIMIT then Oversize(s)
    else s.(line := s.line + [b])
  }

  function SseFeed(decode: EventDecoder, s: SseState, bytes: Bytes): SseState {
    if bytes == [] then s else SseStep(decode, SseFeed(decode, s, bytes[..|bytes| - 1]), bytes[|bytes| - 1])
  }

  function SseFinish(decode: EventDecoder, s: SseState): SseState {
    if !s.Stopped() && s.line != [] then ProcessLine(decode, s, s.line) else s
  }

  function SseParsed(s: SseState): Option<ParsedUsage> {
    if s.hasUsage then Some(ParsedUsage(s.messageId, s.model, s.tokens, s.stopReason, true)) else None
  }

  // ---- chunk invariance, and the reading by lines ----

  /** How the bytes are cut does not matter. */
  lemma {:induction false} SseFeedConcat(decode: EventDecoder, s: SseState, a: Bytes, b: Bytes)
    ensures SseFeed(decode, SseFeed(decode, s, a), b) == SseFeed(decode, s, a + b)
  {
    if b == [] {
      assert a + b == a;
    } else {
      SseFeedConcat(decode, s, a, b[..|b| - 1]);
      assert (a + b)[..|a + b| - 1] == a + b[..|b| - 1];
    }
  }

  lemma {:induction false} SseFeedStopped(decode: EventDecoder, s: SseState, bytes: Bytes)
    requires s.Stopped()
    ensures SseFeed(decode, s, bytes) == s
  {
    if bytes != [] { SseFeedStopped(decode, s, bytes[..|bytes| - 1]); }
  }

  /** What every reachable parser state satisfies. */
  predicate SseValid(s: SseState) {
    && NEWLINE !in s.line && |s.line| <= SSE_LINE_LIMIT
    && !(s.complete && s.invalid)
    && (s.oversize ==> s.invalid)
    && (s.Stopped() ==> s.line == [])
    && (s.complete <==> MessageStop in s.observed)
    && (s.complete ==> s.observed[|s.observed| - 1] == MessageStop && MessageStop !in s.observed[..|s.observed| - 1])
  }

  lemma SseStepValid(decode: EventDecoder, s: SseState, b: byte)
    requires SseValid(s)
    ensures SseValid(SseStep(decode, s, b))
  {
    if !s.Stopped() && b == NEWLINE { ProcessLineValid(decode, s, s.line); }
  }

  /** A line processed while neither flag is set sets at most one of them, and completes exactly on message_stop. */
  lemma ProcessLineValid(decode: EventDecoder, s: SseState, line: Bytes)
    requires SseValid(s) && !s.Stopped()
    ensures SseValid(ProcessLine(decode, s, line))
    ensures ProcessLine(decode, s, line).oversize == s.oversize
  {
    hide Payload, ApplyEvent;
    var data := Payload(line);
    if data.Some? && data.value != [] && data.value != DONE && decode(data.value).Some? {
      var event := decode(data.value).value;
      assert (s.observed + [event])[..|s.observed|] == s.observed;
      ApplyEventFlags(s.(line := [], observed := s.observed + [event]), event);
    }
  }

  lemma ApplyEventFlags(s: SseState, event: SseEvent)
    requires !s.Stopped()
    ensures var t := ApplyEvent(s, event);
            && t.line == s.line && t.observed == s.observed && t.oversize == s.oversize
            && t.complete == (event == MessageStop) && !(t.complete && t.invalid)
  {}

  lemma {:induction false} SseFeedValid(decode: EventDecoder, s: SseState, bytes: Bytes)
    requires SseValid(s)
    ensures SseValid(SseFeed(decode, s, bytes))
  {
    if bytes != [] {
      SseFeedValid(decode, s, bytes[..|bytes| - 1]);
      SseStepValid(decode, SseFeed(decode, s, bytes[..|bytes| - 1]), bytes[|bytes| - 1]);
    }
  }

  lemma SseFinishValid(decode: EventDecoder, s: SseState)
    requires SseValid(s)
    ensures SseValid(SseFinish(decode, s))
  {
    if !s.Stopped() && s.line != [] { ProcessLineValid(decode, s, s.line); }
  }

  /** Lines, each closed by a newline, then an unfinished tail. */
  function Join(lines: seq<Bytes>, tail: Bytes): Bytes {
    if lines == [] then tail else lines[0] + [NEWLINE] + Join(lines[1..], tail)
  }

  /** The simple reading: whole lines in order until one stops the parser or is too long; then the tail waits. */
  function FoldLines(decode: EventDecoder, s: SseState, lines: seq<Bytes>, tail: Bytes): SseState
    decreases |lines|
  {
    if s.Stopped() then s
    else if lines == [] then (if |tail| > SSE_LINE_LIMIT then Oversize(s) else s.(line := tail))
    else if |lines[0]| > SSE_LINE_LIMIT then Oversize(s)
    else FoldLines(decode, ProcessLine(decode, s, lines[0]), lines[1..], tail)
  }

  predicate LineFree(bytes: Bytes) { NEWLINE !in bytes }

  /** Bytes without a newline only fill the line buffer, up to the limit. */
  lemma {:induction false} FeedLineFree(decode: EventDecoder, s: SseState, bytes: Bytes)
    requires !s.Stopped() && s.line == [] && LineFree(bytes)
    ensures SseFeed(decode, s, bytes) == if |bytes| > SSE_LINE_LIMIT then Oversize(s) else s.(line := bytes)
  {
    if bytes != [] {
      FeedLineFree(decode, s, bytes[..|bytes| - 1]);
    }
  }

  /** Byte-by-byte parsing of any byte string is the fold of `process_line` over its lines. */
  lemma {:induction false} FeedIsFoldOfLines(decode: EventDecoder, s: SseState, lines: seq<Bytes>, tail: Bytes)
    requires s.line == [] && LineFree(tail) && forall k :: 0 <= k < |lines| ==> LineFree(lines[k])
    ensures SseFeed(decode, s, Join(lines, tail)) == FoldLines(decode, s, lines, tail)
    decreases |lines|
  {
    if s.Stopped() {
      SseFeedStopped(decode, s, Join(lines, tail));
    } else if lines == [] {
      FeedLineFree(decode, s, tail);
    } else {
      hide SseFeed, ProcessLine;
      var line, rest := lines[0], Join(lines[1..], tail);
      FeedClosedLine(decode, s, line);
      SseFeedConcat(decode, s, line + [NEWLINE], rest);
      if |line| > SSE_LINE_LIMIT {
        SseFeedStopped(decode, Oversize(s), rest);
      } else {
        assert ProcessLine(decode, s, line).line == [] by { ProcessLineClears(decode, s, line); }
        FeedIsFoldOfLines(decode, ProcessLine(decode, s, line), lines[1..], tail);
      }
    }
  }

  lemma ProcessLineClears(decode: EventDecoder, s: SseState, line: Bytes)
    ensures ProcessLine(decode, s, line).line == []
  {}

  lemma FeedClosedLine(decode: EventDecoder, s: SseState, line: Bytes)
    requires !s.Stopped() && s.line == [] && LineFree(line)
    ensures SseFeed(decode, s, line + [NEWLINE]) == if |line| > SSE_LINE_LIMIT then Oversize(s) else ProcessLine(decode, s, line)
  {
    hide ProcessCleared;
    FeedLineFree(decode, s, line);
    assert (line + [NEWLINE])[..|line|] == line;
  }

  /** Every byte string is such a joining of lines, so `FeedIsFoldOfLines` covers all inputs. */
  lemma {:induction false} EveryInputSplits(bytes: Bytes) returns (lines: seq<Bytes>, tail: Bytes)
    ensures Join(lines, tail) == bytes && LineFree(tail) && forall k :: 0 <= k < |lines| ==> LineFree(lines[k])
  {
    if LineFree(bytes) {
      lines, tail := [], bytes;
    } else {
      var i := FirstNewline(bytes);
      var restLines, restTail := EveryInputSplits(bytes[i + 1..]);
      lines, tail := [bytes[..i]] + restLines, restTail;
      assert bytes == bytes[..i] + [NEWLINE] + bytes[i + 1..];
    }
  }

  lemma {:induction false} FirstNewline(bytes: Bytes) returns (i: nat)
    requires !LineFree(bytes)
    ensures i < |bytes| && bytes[i] == NEWLINE && LineFree(bytes[..i])
  {
    if bytes[0] == NEWLINE { i := 0; } else {
      assert bytes == [bytes[0]] + bytes[1..];
      i := FirstNewline(bytes[1..]);
      i := i + 1;
      assert bytes[..i] == [bytes[0]] + bytes[1..][..i - 1];
    }
  }

  // ---- buffered JSON: the specification ----

  type BodyDecoder = Bytes -> Option<JsonBody>

  datatype JsonState = JsonState(buffer: Bytes, parsed: Option<ParsedUsage>, invalid: bool, oversize: bool, observed: seq<JsonBody>)

  const JSON_START := JsonState([], None, false, false, [])

  function JsonFeed(s: JsonState, bytes: Bytes): JsonState {
    if s.invalid then s
    else if |s.buffer| + |bytes| > JSON_LIMIT then s.(buffer := [], invalid := true, oversize := true)
    else s.(buffer := s.buffer + bytes)
  }

  function JsonFinish(decode: BodyDecoder, s: JsonState): JsonState {
    if s.invalid || s.parsed.Some? || s.buffer == [] then s
    else
      match decode(s.buffer)
      case None => s.(buffer := [], invalid := true)
      case Some(body) =>
        var seen := s.(buffer := [], observed := s.observed + [body]);
        match body.usage
        case BadUsage => seen.(invalid := true)
        case NoUsage => seen.(parsed := Some(ParsedUsage(body.id, body.model, NO_TOKENS, body.stopReason, false)))
        case Usage(patch) =>
          seen.(parsed := Some(ParsedUsage(body.id, body.model, patch.Apply(NO_TOKENS), body.stopReason, patch.HasAny())))
  }

  lemma JsonFeedConcat(s: JsonState, a: Bytes, b: Bytes)
    ensures JsonFeed(JsonFeed(s, a), b) == JsonFeed(s, a + b)
  {
    assert s.buffer + (a + b) == (s.buffer + a) + b;
  }

  // ---- the parsers, updating their fields in place ----

  class SseParser {
    const decode: EventDecoder
    var line: Bytes
    var messageId: Option<string>
    var model: Option<string>
    var tokens: UsageTokens
    var stopReason: Option<string>
    var hasUsage: bool
    var complete: bool
    var invalid: bool
    var oversize: bool
    var observed: seq<SseEvent>

    function State(): SseState
      reads this
    {
      SseState(line, messageId, model, tokens, stopReason, hasUsage, complete, invalid, oversize, observed)
    }

    constructor (decode: EventDecoder)
      ensures State() == SSE_START && this.decode == decode
    {
      this.decode := decode;
      line, messageId, model, tokens, stopReason := [], None, None, NO_TOKENS, None;
      hasUsage, complete, invalid, oversize, observed := false, false, false, false, [];
    }

    /** `process_line`, with the clearing of the buffer that follows every call of it. */
    method ProcessOwnLine()
      modifies this
      ensures State() == ProcessLine(decode, old(State()), old(line))
    {
      var data := Payload(line);
      line := [];
      if data.None? || data.value == [] || data.value == DONE { return; }
      var value := decode(data.value);
      if value.None? {
        invalid := true;
        return;
      }
      observed := observed + [value.value];
      match value.value {
        case MessageStart(None) => invalid := true;
        case MessageStart(Some(message)) =>
          messageId := Or(message.id, messageId);
          model := Or(message.model, model);
          ApplyUsageField(message.usage);
        case MessageDelta(reason, usage) =>
          if reason.Some? { stopReason := reason; }
          ApplyUsageField(usage);
        case MessageStop => complete := true;
        case _ =>
      }
    }

    method ApplyUsageField(usage: UsageField)
      modifies this
      ensures State() == ApplyUsage(old(State()), usage)
    {
      match usage {
        case NoUsage =>
        case BadUsage => invalid := true;
        case Usage(patch) =>
          hasUsage := hasUsage || patch.HasAny();
          tokens := patch.Apply(tokens);
      }
    }

    method Feed(bytes: Bytes)
      modifies this
      ensures State() == SseFeed(decode, old(State()), bytes)
    {
      if invalid || complete {
        SseFeedStopped(decode, State(), bytes);
        return;
      }
      for i := 0 to |bytes|
        invariant State() == SseFeed(decode, old(State()), bytes[..i])
        invariant !State().Stopped()
      {
        assert bytes[..i + 1][..i] == bytes[..i];
        assert bytes == bytes[..i + 1] + bytes[i + 1..];
        if bytes[i] == NEWLINE {
          ProcessOwnLine();
          if invalid || complete {
            SseFeedConcat(decode, old(State()), bytes[..i + 1], bytes[i + 1..]);
            SseFeedStopped(decode, State(), bytes[i + 1..]);
            return;
          }
        } else {
          if |line| >= SSE_LINE_LIMIT {
            line := [];
            invalid := true;
            oversize := true;
            SseFeedConcat(decode, old(State()), bytes[..i + 1], bytes[i + 1..]);
            SseFeedStopped(decode, State(), bytes[i + 1..]);
            return;
          }
          line := line + [bytes[i]];
        }
      }
      assert bytes[..|bytes|] == bytes;
    }

    method Finish()
      modifies this
      ensures State() == SseFinish(decode, old(State()))
    {
      if !invalid && !complete && line != [] {
        ProcessOwnLine();
      }
    }
  }

  class JsonParser {
    const decode: BodyDecoder
    var buffer: Bytes
    var parsed: Option<ParsedUsage>
    var invalid: bool
    var oversize: bool
    var observed: seq<JsonBody>

    function State(): JsonState
      reads this
    {
      JsonState(buffer, parsed, invalid, oversize, observed)
    }

    constructor (decode: BodyDecoder)
      ensures State() == JSON_START && this.decode == decode
    {
      this.decode := decode;
      buffer, parsed, invalid, oversize, observed := [], None, false, false, [];
    }

    method Feed(bytes: Bytes)
      modifies this
      ensures State() == JsonFeed(old(State()), bytes)
    {
      if invalid { return; }
      if |buffer| + |bytes| > JSON_LIMIT {
        buffer := [];
        invalid := true;
        oversize := true;
        return;
      }
      buffer := buffer + bytes;
    }

    method Finish()
      modifies this
      ensures State() == JsonFinish(decode, old(State()))
    {
      if invalid || parsed.Some? || buffer == [] { return; }
      match decode(buffer) {
        case Some(body) =>
          observed := observed + [body];
          match body.usage {
            case BadUsage => invalid := true;
            case NoUsage => parsed := Some(ParsedUsage(body.id, body.model, NO_TOKENS, body.stopReason, false));
            case Usage(patch) =>
              parsed := Some(ParsedUsage(body.id, body.model, patch.Apply(NO_TOKENS), body.stopReason, patch.HasAny()));
          }
        case None => invalid := true;
      }
      buffer := [];
    }
  }
}
