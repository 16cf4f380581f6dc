/** The values behind a request's milestones (src/service/performance.rs): each field of its timing state is the first or
    the last of the times at which something was seen. */
module MilestoneDigest {
  import opened Wrappers
  import opened UsageParsing
  import opened ResponseObserver
  import opened Milestones

  predicate IsText(call: MonitorCall) { call == Observed(ContentBlock(Content(TextPhase))) }

  /** message_stop, or a whole message. */
  predicate EndsMessage(call: MonitorCall) { call == Observed(MessageStop) || (call.ObservedBody? && call.body.isMessage) }

  /** The times of the calls that satisfy a condition. */
  function When(calls: seq<MonitorCall>, times: seq<nat>, seen: MonitorCall -> bool): seq<Option<nat>>
    requires |times| == |calls|
  {
    seq(|calls|, i requires 0 <= i < |calls| => if seen(calls[i]) then Some(times[i]) else None)
  }

  function QualityIn(call: MonitorCall): Option<Quality> {
    if call == ParseFailed then Some(ParseFailure) else if call == Observed(ContentBlock(UnknownContent)) then Some(Partial) else None
  }

  function Qualities(calls: seq<MonitorCall>): seq<Option<Quality>> {
    seq(|calls|, i requires 0 <= i < |calls| => QualityIn(calls[i]))
  }

  lemma OneMoreSeen(calls: seq<MonitorCall>, times: seq<nat>, seen: MonitorCall -> bool, call: MonitorCall, ms: nat)
    requires |times| == |calls|
    ensures var now := if seen(call) then Some(ms) else None; var all := When(calls + [call], times + [ms], seen);
            Earliest(all) == Or(Earliest(When(calls, times, seen)), now) && Latest(all) == Or(now, Latest(When(calls, times, seen)))
  {
    assert When(calls + [call], times + [ms], seen)[..|calls|] == When(calls, times, seen);
  }

  lemma OneMoreQuality(calls: seq<MonitorCall>, call: MonitorCall)
    ensures Latest(Qualities(calls + [call])) == Or(QualityIn(call), Latest(Qualities(calls)))
  {
    assert Qualities(calls + [call])[..|calls|] == Qualities(calls);
  }

  /** First byte, first content and first text are the first times of their kind, completion and last content the last
      ones, and the quality is the last judgement passed. */
  ghost predicate Digested(s: RequestState, calls: seq<MonitorCall>, times: seq<nat>)
    requires |times| == |calls|
  {
    && !s.finished && s.duration == None
    && s.firstByte == Earliest(When(calls, times, call => call == BytesSeen))
    && s.firstContent == Earliest(When(calls, times, IsContent)) && s.lastContent == Latest(When(calls, times, IsContent))
    && s.firstText == Earliest(When(calls, times, IsText))
    && s.modelCompleted == Latest(When(calls, times, EndsMessage))
    && s.quality == Latest(Qualities(calls)).GetOr(FullyObserved)
    && s.outcome == (if Observed(ErrorEvent) in calls then Some(StreamErrorOutcome) else None)
  }

  lemma CallFields(s: RequestState, call: MonitorCall, ms: nat)
    requires !s.finished
    ensures var t := Apply(s, call, ms);
            && !t.finished && t.duration == s.duration && t.isStream == s.isStream
            && t.firstByte == Or(s.firstByte, if call == BytesSeen then Some(ms) else None)
            && t.firstContent == Or(s.firstContent, if IsContent(call) then Some(ms) else None)
            && t.lastContent == Or(if IsContent(call) then Some(ms) else None, s.lastContent)
            && t.firstText == Or(s.firstText, if IsText(call) then Some(ms) else None)
            && t.modelCompleted == Or(if EndsMessage(call) then Some(ms) else None, s.modelCompleted)
            && t.quality == QualityIn(call).GetOr(s.quality)
            && t.outcome == (if call == Observed(ErrorEvent) then Some(StreamErrorOutcome) else s.outcome)
  {}

  lemma CallDigested(s: RequestState, calls: seq<MonitorCall>, times: seq<nat>, call: MonitorCall, ms: nat)
    requires |times| == |calls| && Digested(s, calls, times)
    ensures Digested(Apply(s, call, ms), calls + [call], times + [ms])
  {
    hide Apply, When, Earliest, Latest, Qualities, QualityIn, IsContent, IsText, EndsMessage;
    CallFields(s, call, ms);
    OneMoreSeen(calls, times, c => c == BytesSeen, call, ms);
    OneMoreSeen(calls, times, IsContent, call, ms);
    OneMoreSeen(calls, times, IsText, call, ms);
    OneMoreSeen(calls, times, EndsMessage, call, ms);
    OneMoreQuality(calls, call);
    assert Observed(ErrorEvent) in calls + [call] <==> Observed(ErrorEvent) in calls || call == Observed(ErrorEvent);
  }

  lemma {:induction false} ReplayDigested(isStream: bool, calls: seq<MonitorCall>, times: seq<nat>)
    requires |times| == |calls|
    ensures Digested(Replay(isStream, calls, times), calls, times) && Replay(isStream, calls, times).isStream == isStream
  {
    hide Apply, Digested;
    if calls == [] {
      StartDigested(isStream);
    } else {
      var n := |calls| - 1;
      ReplayDigested(isStream, calls[..n], times[..n]);
      CallDigested(Replay(isStream, calls[..n], times[..n]), calls[..n], times[..n], calls[n], times[n]);
      assert calls[..n] + [calls[n]] == calls && times[..n] + [times[n]] == times;
      assert !Replay(isStream, calls[..n], times[..n]).finished by { NotFinished(Replay(isStream, calls[..n], times[..n]), calls[..n], times[..n]); }
      CallFields(Replay(isStream, calls[..n], times[..n]), calls[n], times[n]);
    }
  }

  lemma NotFinished(s: RequestState, calls: seq<MonitorCall>, times: seq<nat>)
    requires |times| == |calls| && Digested(s, calls, times)
    ensures !s.finished
  {}

  lemma StartDigested(isStream: bool)
    ensures Digested(RequestStart(isStream), [], [])
  {}

  /** The event stored for a request with no recorded failure: the milestones as first and last times, the duration, and
      the outcome, in order of precedence. */
  lemma StoredEvent(isStream: bool, calls: seq<MonitorCall>, times: seq<nat>, end: nat, aborted: bool)
    requires |times| == |calls|
    ensures var e := Completed(Replay(isStream, calls, times), end, aborted);
            && e.firstByte == Earliest(When(calls, times, call => call == BytesSeen))
            && e.firstContent == Earliest(When(calls, times, IsContent)) && e.firstText == Earliest(When(calls, times, IsText))
            && e.modelCompleted == Latest(When(calls, times, EndsMessage)) && e.duration == Some(end) && e.finished
            && e.outcome == Some(
                 if Observed(ErrorEvent) in calls then StreamErrorOutcome
                 else if aborted then Aborted
                 else if Latest(Qualities(calls)) == Some(ParseFailure) then Unknown
                 else if e.modelCompleted.Some? then Succeeded
                 else if isStream then Incomplete else Unknown)
  {
    hide Apply, Replay, When, Earliest, Latest, Qualities;
    ReplayDigested(isStream, calls, times);
  }
}
