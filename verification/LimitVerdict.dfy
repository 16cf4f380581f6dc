/** The verdicts on a rate-limit state in plain numbers (src/service/limit.rs): who is refused, what is reported,
    what a 429 blocks, and when the state is written back. */
module LimitVerdict {
  import opened Wrappers
  import opened Decimal
  import opened Pricing
  import opened Limits
  import opened LimitMirrors

  // ---- who is refused ----

  /** Less than 3 % left of a limit that has not been reset yet. */
  predicate Low(c: Option<Counter>, now: Time) {
    c.Some? && c.value.limit > 0 && 100 * c.value.remaining < 3 * c.value.limit && c.value.resetAt > now
  }

  predicate AnyLow(rt: Option<RpmTpm>, now: Time) {
    rt.Some? && (Low(rt.value.requests, now) || Low(rt.value.tokens, now) || Low(rt.value.inputTokens, now) || Low(rt.value.outputTokens, now))
  }

  /** At least 97 % of a window used that has not been reset yet. */
  predicate Full(w: Option<Window>, now: Time) { w.Some? && w.value.utilization >= 0.97 && w.value.resetsAt > now }

  predicate AccountRefuses(s: LimitState, now: Time) {
    || s.status == Some(Rejected) || (s.rateLimitedUntil.Some? && s.rateLimitedUntil.value > now)
    || AnyLow(s.rpmTpm, now) || Full(s.fiveHour, now) || Full(s.sevenDay, now)
  }

  predicate GroupRefuses(s: LimitState, group: string, now: Time) {
    || (group in s.scopedBans && s.scopedBans[group] > now)
    || (group in s.scopedWeekly
        && var w := s.scopedWeekly[group].window; w.status == Rejected || (w.utilization >= 0.97 && w.resetsAt > now))
  }

  /** Multiplying out the ratio. */
  lemma RatioBelow(remaining: int, limit: int)
    requires limit > 0
    ensures remaining as real / limit as real < 0.03 <==> 100 * remaining < 3 * limit
  {
    var q := remaining as real / limit as real;
    assert q * limit as real == remaining as real;
    if q < 0.03 { assert q * limit as real < 0.03 * limit as real; }
    if q >= 0.03 { assert q * limit as real >= 0.03 * limit as real; }
  }

  lemma PreemptedIsLow(c: Counter, now: Time)
    ensures c.Preempted(now) <==> Low(Some(c), now)
  {
    if c.limit > 0 { RatioBelow(c.remaining, c.limit); }
  }

  lemma FirstLow(counters: seq<Option<Counter>>, now: Time)
    ensures counters != [] ==>
              FirstPreempted(counters, now) == if Low(counters[0], now) then Some(counters[0].value.resetAt) else FirstPreempted(counters[1..], now)
    ensures FirstPreempted([], now) == None
  {
    if counters != [] && counters[0].Some? { PreemptedIsLow(counters[0].value, now); }
    hide Counter.Preempted, Low;
  }

  /** The reset reported is that of the first low counter: requests, tokens, input tokens, output tokens. */
  lemma LowUntil(rt: Option<RpmTpm>, now: Time)
    ensures PreemptedUntil(rt, now).Some? <==> AnyLow(rt, now)
    ensures rt.Some? ==> var c := rt.value;
              PreemptedUntil(rt, now) == if Low(c.requests, now) then Some(c.requests.value.resetAt)
                                         else if Low(c.tokens, now) then Some(c.tokens.value.resetAt)
                                         else if Low(c.inputTokens, now) then Some(c.inputTokens.value.resetAt)
                                         else if Low(c.outputTokens, now) then Some(c.outputTokens.value.resetAt) else None
  {
    hide FirstPreempted, Low;
    if rt.Some? {
      var all := rt.value.All();
      FirstLow(all, now);
      FirstLow(all[1..], now);
      FirstLow(all[2..], now);
      FirstLow(all[3..], now);
      FirstLow([], now);
      assert all[1..][1..] == all[2..] && all[2..][1..] == all[3..] && all[3..][1..] == [];
    }
  }

  /** An account is refused to a class exactly when its status is rejected, a ban lasts, a counter is low, a window is
      full, or the class is Sonnet or Fable and its own group is banned, rejected or full. */
  lemma RefusedExactly(s: LimitState, c: ModelClass, now: Time)
    requires Mirrored(s)
    ensures !IsAvailable(s, c, now)
            <==> || AccountRefuses(s, now) || (c == SonnetClass && GroupRefuses(s, "sonnet", now))
                 || (c == FableClass && GroupRefuses(s, "fable", now))
  {
    hide PreemptedUntil, AnyLow, NormalGroup;
    LowUntil(s.rpmTpm, now);
  }

  /** What is reported with a refusal: the first gate that refuses, and until when. */
  lemma ReportedExactly(s: LimitState, c: ModelClass, now: Time)
    requires Mirrored(s) && !IsAvailable(s, c, now)
    ensures var banned := s.rateLimitedUntil.Some? && s.rateLimitedUntil.value > now;
            Judge(s, c, now)
            == if s.status == Some(Rejected) then Unavailable(RejectedStatus, s.notes.resetAt)
               else if banned then Unavailable(Banned, s.rateLimitedUntil)
               else if AnyLow(s.rpmTpm, now) then Unavailable(CountersLow, PreemptedUntil(s.rpmTpm, now))
               else if Full(s.fiveHour, now) then Unavailable(FiveHourHit, Some(s.fiveHour.value.resetsAt))
               else if Full(s.sevenDay, now) then Unavailable(SevenDayHit, Some(s.sevenDay.value.resetsAt))
               else
                 var group := if c == SonnetClass then "sonnet" else "fable";
                 if group in s.scopedBans && s.scopedBans[group] > now then Unavailable(ScopedBanned, Some(s.scopedBans[group]))
                 else Unavailable(ScopedWindowHit, if group in s.scopedWeekly then Some(s.scopedWeekly[group].window.resetsAt) else None)
  {
    hide PreemptedUntil, AnyLow, NormalGroup;
    LowUntil(s.rpmTpm, now);
  }

  // ---- what a 429 blocks ----

  /** A delay in seconds that the clock's duration type can hold. */
  predicate Within(delay: Option<nat>, otherwise: nat, now: Time, t: Time) {
    delay.GetOr(otherwise) <= 9_223_372_036_854_775 && t < now + delay.GetOr(otherwise) * 1_000_000_000
  }

  /** A 429 whose claim is the Sonnet week blocks Sonnet, one whose claim is the overage-included week blocks Fable:
      until the reset it dates, or without one for the delay it asks for. */
  lemma ClaimBlocksItsClass(prev: LimitState, requested: ModelClass, r: Response, now: Time, t: Time)
    requires Mirrored(prev) && r.httpStatus == 429
    requires var reset := r.unified.notes.resetAt;
             if reset.Some? then t < reset.value else r.retryAfter.Some? && Within(r.retryAfter, 0, now, t)
    ensures var n := ComputeNewState(prev, requested, r, now); var claim := r.unified.notes.representativeClaim;
            && (claim == Some("seven_day_sonnet") ==> n.Some? && !IsAvailable(n.value, SonnetClass, t))
            && (claim == Some("seven_day_overage_included") ==> n.Some? && !IsAvailable(n.value, FableClass, t))
  {
    hide ApplyParsed, JudgeAccount, NormalGroup;
  }

  /** Without any header it blocks the class of the request for its delay or a minute, and Opus stands for everybody. */
  lemma BareRejectionBlocks(prev: LimitState, requested: ModelClass, r: Response, now: Time, c: ModelClass, t: Time)
    requires Mirrored(prev) && r == Response(429, NO_HEADERS, NO_COUNTERS, r.retryAfter) && Within(r.retryAfter, 60, now, t)
    requires c == requested || requested == OpusClass
    ensures var n := ComputeNewState(prev, requested, r, now); n.Some? && !IsAvailable(n.value, c, t)
  {
    hide PreemptedUntil, NormalGroup;
  }

  /** A 429 with other headers that dates no reset bans the account for its delay, when it claims no model group. */
  lemma AccountRejectionBlocks(prev: LimitState, requested: ModelClass, r: Response, now: Time, c: ModelClass, t: Time)
    requires HasHeaders(r) && r.httpStatus == 429 && r.unified.notes.resetAt.None? && r.retryAfter.Some? && Within(r.retryAfter, 0, now, t)
    requires r.unified.notes.representativeClaim !in {Some("seven_day_sonnet"), Some("seven_day_overage_included")}
    ensures var n := ComputeNewState(prev, requested, r, now); n.Some? && !IsAvailable(n.value, c, t)
  {
    hide ApplyParsed, PreemptedUntil;
  }

  // ---- whose window it is ----

  /** An explicit window is its group's. An unqualified 7d window is the account's, unless the claim names a group for
      which no explicit window came: then it is that group's, under the status of the response. */
  lemma WindowsBelong(s: LimitState, u: UnifiedHeaders)
    ensures var t, claim := ApplyParsed(s, u), u.notes.representativeClaim;
            var toSonnet := u.sevenDay.Some? && claim == Some("seven_day_sonnet") && u.sonnet.None?;
            var toFable := u.sevenDay.Some? && claim == Some("seven_day_overage_included") && u.fable.None?;
            && (u.sonnet.Some? ==> "sonnet" in t.scopedWeekly && t.scopedWeekly["sonnet"].window == u.sonnet.value)
            && (u.fable.Some? ==> "fable" in t.scopedWeekly && t.scopedWeekly["fable"].window == u.fable.value)
            && (toSonnet ==> "sonnet" in t.scopedWeekly && t.sevenDay == s.sevenDay
                             && t.scopedWeekly["sonnet"].window == u.sevenDay.value.(status := u.status.GetOr(u.sevenDay.value.status)))
            && (toFable ==> "fable" in t.scopedWeekly && t.sevenDay == s.sevenDay
                            && t.scopedWeekly["fable"].window == u.sevenDay.value.(status := u.status.GetOr(u.sevenDay.value.status)))
            && (u.sevenDay.Some? && !toSonnet && !toFable ==> t.sevenDay == u.sevenDay)
            && (u.sonnet.None? && !toSonnet ==> ScopedWindow(t, "sonnet") == ScopedWindow(s, "sonnet"))
            && (u.fable.None? && !toFable ==> ScopedWindow(t, "fable") == ScopedWindow(s, "fable"))
            && (claim in {Some("seven_day_sonnet"), Some("seven_day_overage_included")} ==> t.status == s.status)
            && (claim !in {Some("seven_day_sonnet"), Some("seven_day_overage_included")} && u.status.Some? ==> t.status == u.status)
  {
    hide MergeNotes;
  }

  // ---- when the state is written back ----

  predicate Used97(w: Option<Window>) { w.Some? && w.value.utilization >= 0.97 }
  predicate HasSurpassed(w: Option<Window>) { w.Some? && w.value.surpassedThreshold.Some? }

  /** A model group's window that is new, stopped being allowed, reached 97 % or newly surpassed a threshold. */
  predicate WindowWorsened(prev: LimitState, n: LimitState, g: string)
    requires g in n.scopedWeekly
  {
    g !in prev.scopedWeekly
    || (var before, after := prev.scopedWeekly[g].window, n.scopedWeekly[g].window;
        || (before.status == Allowed && after.status != Allowed) || (before.utilization < 0.97 && after.utilization >= 0.97)
        || (before.surpassedThreshold.None? && after.surpassedThreshold.Some?))
  }

  /** The state is written back exactly when it never was, or not for five minutes, or something got worse. */
  lemma WrittenExactly(prev: LimitState, n: LimitState, now: Time)
    ensures FlushReason(prev, n, now).Some?
            <==> || prev.lastFlushAt.None? || now - prev.lastFlushAt.value >= 300 * 1_000_000_000
                 || (prev.status in {None, Some(Allowed)} && n.status in {Some(AllowedWarning), Some(Rejected)})
                 || (exists g :: g in n.scopedWeekly && WindowWorsened(prev, n, g))
                 || (Used97(n.fiveHour) && !Used97(prev.fiveHour)) || (Used97(n.sevenDay) && !Used97(prev.sevenDay))
                 || (HasSurpassed(n.fiveHour) && !HasSurpassed(prev.fiveHour)) || (HasSurpassed(n.sevenDay) && !HasSurpassed(prev.sevenDay))
                 || (prev.rateLimitedUntil.None? && n.rateLimitedUntil.Some?)
                 || (exists g :: g in n.scopedBans && (g in prev.scopedBans ==> n.scopedBans[g] > prev.scopedBans[g]))
                 || (AnyLow(n.rpmTpm, now) && !AnyLow(prev.rpmTpm, now))
  {
    LowUntil(prev.rpmTpm, now);
    LowUntil(n.rpmTpm, now);
    GroupsWorsened(prev, n);
    hide PreemptedUntil, AnyLow, WindowAddedTo, ScopedTightened, ScopedCrossed, ScopedSurpassed, WindowWorsened;
  }

  lemma FlushTimeStays(prev: LimitState, c: ModelClass, r: Response, now: Time)
    ensures var computed := ComputeNewState(prev, c, r, now); computed.Some? ==> computed.value.lastFlushAt == prev.lastFlushAt
  {
    hide MergeNotes, MergeRpmTpm, BanUntil;
  }

  /** Writing is remembered, and only writing: a reason marks the state as written now. */
  lemma WritingIsRemembered(prev: LimitState, c: ModelClass, r: Response, now: Time)
    ensures var (n, written) := Absorb(prev, c, r, now); var computed := ComputeNewState(prev, c, r, now);
            && n == computed.GetOr(prev).(lastFlushAt := if written then Some(now) else prev.lastFlushAt)
            && (written <==> computed.Some? && FlushReason(prev, computed.value, now).Some?)
  {
    FlushTimeStays(prev, c, r, now);
    hide FlushReason, ComputeNewState;
  }

  lemma GroupsWorsened(prev: LimitState, n: LimitState)
    ensures WindowAddedTo(prev, n) || ScopedTightened(prev, n) || ScopedCrossed(prev, n) || ScopedSurpassed(prev, n)
            <==> exists g :: g in n.scopedWeekly && WindowWorsened(prev, n, g)
  {
    forall g | g in n.scopedWeekly
      ensures WindowWorsened(prev, n, g)
              <==> || g !in prev.scopedWeekly
                   || (StatusOf(ScopedWindow(prev, g)) == Allowed && n.scopedWeekly[g].window.status != Allowed)
                   || CrossedThreshold(ScopedWindow(prev, g), ScopedWindow(n, g)) || NewlySurpassed(ScopedWindow(prev, g), ScopedWindow(n, g))
    {
    }
    hide WindowWorsened, CrossedThreshold, NewlySurpassed, StatusOf;
  }

  /** A report's group names are taken without the whitespace around them and with ASCII letters in lower case. */
  lemma ListedGroupName(raw: string) returns (before: string, name: string, after: string)
    ensures raw == before + name + after && Blank(before) && Blank(after) && Trimmed(name) && |NormalGroup(raw)| == |name|
    ensures forall k :: 0 <= k < |name| ==>
              NormalGroup(raw)[k] as int == if 'A' <= name[k] <= 'Z' then name[k] as int + 32 else name[k] as int
  {
    before, after := TrimCuts(raw);
    name := Trim(raw);
    forall k | 0 <= k < |name|
      ensures NormalGroup(raw)[k] as int == if 'A' <= name[k] <= 'Z' then name[k] as int + 32 else name[k] as int
    {
      NamesAreNormalized(name, k);
    }
  }
}
