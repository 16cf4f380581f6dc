/** Availability over time, the database column that summarizes it, and the isolation of model groups
    (src/service/limit.rs). */
module LimitAvailability {
  import opened Wrappers
  import opened Pricing
  import opened Limits
  import opened LimitMirrors

  // ---- counters ----

  /** A counter stays preempted until its reset, and never becomes preempted by waiting. */
  lemma PreemptedLater(c: Counter, now: Time, t: Time)
    requires now <= t
    ensures c.Preempted(t) <==> c.Preempted(now) && c.resetAt > t
  {}

  lemma {:induction false} PreemptionOverTime(counters: seq<Option<Counter>>, now: Time, t: Time)
    requires now <= t
    ensures FirstPreempted(counters, t).Some? ==> FirstPreempted(counters, now).Some?
    ensures FirstPreempted(counters, now).Some? && t < FirstPreempted(counters, now).value ==> FirstPreempted(counters, t).Some?
    decreases |counters|
  {
    if counters != [] {
      if counters[0].Some? { PreemptedLater(counters[0].value, now, t); }
      PreemptionOverTime(counters[1..], now, t);
    }
  }

  predicate Exceeds(o: Option<Time>, t: Time) { o.Some? && o.value > t }

  /** The picked maximum lies beyond t exactly when it did before or a counter is preempted at t. */
  lemma {:induction false} PickedCounters(picked: Option<Time>, counters: seq<Option<Counter>>, now: Time, t: Time)
    requires now <= t
    ensures Exceeds(PickCounters(picked, counters, now), t) <==> Exceeds(picked, t) || FirstPreempted(counters, t).Some?
    decreases |counters|
  {
    if counters != [] {
      var c := counters[0];
      if c.Some? { PreemptedLater(c.value, now, t); }
      PickedCounters(if c.Some? && c.value.Preempted(now) then Later(picked, c.value.resetAt) else picked, counters[1..], now, t);
    }
  }

  // ---- time ----

  lemma CountersOverTime(rt: Option<RpmTpm>, now: Time, t: Time)
    requires now <= t
    ensures PreemptedUntil(rt, t).Some? ==> PreemptedUntil(rt, now).Some?
    ensures PreemptedUntil(rt, now).Some? && t < PreemptedUntil(rt, now).value ==> PreemptedUntil(rt, t).Some?
  {
    if rt.Some? { PreemptionOverTime(rt.value.All(), now, t); }
  }

  /** Time alone never takes an account away from a class. */
  lemma AvailabilityIsMonotone(s: LimitState, c: ModelClass, now: Time, t: Time)
    requires now <= t && IsAvailable(s, c, now)
    ensures IsAvailable(s, c, t)
  {
    hide PreemptedUntil;
    CountersOverTime(s.rpmTpm, now, t);
  }

  /** The time given with a refusal is never too late: until then the class stays refused. */
  lemma UntilIsALowerBound(s: LimitState, c: ModelClass, now: Time, t: Time)
    requires now <= t && !IsAvailable(s, c, now) && Exceeds(Judge(s, c, now).until, t)
    ensures !IsAvailable(s, c, t)
  {
    hide PreemptedUntil;
    CountersOverTime(s.rpmTpm, now, t);
  }

  // ---- the database column ----

  lemma BottleneckExceeds(s: LimitState, now: Time, t: Time)
    requires now <= t
    ensures Exceeds(Bottleneck(s, now), t)
            <==> || (s.fiveHour.Some? && s.fiveHour.value.Hit(t)) || (s.sevenDay.Some? && s.sevenDay.value.Hit(t))
                 || PreemptedUntil(s.rpmTpm, t).Some?
  {
    hide PickCounters, FirstPreempted;
    var windows := PickWindow(PickWindow(None, s.fiveHour, now), s.sevenDay, now);
    if s.rpmTpm.Some? { PickedCounters(windows, s.rpmTpm.value.All(), now, t); }
  }

  /** With no rejected status and no running ban, the bottleneck is the exact time until which the account is
      unavailable to models without a limit of their own. */
  lemma BottleneckIsExact(s: LimitState, now: Time, t: Time)
    requires now <= t && s.status != Some(Rejected) && !Exceeds(s.rateLimitedUntil, now)
    ensures !IsAvailable(s, OpusClass, t) <==> Exceeds(Bottleneck(s, now), t)
  {
    hide PreemptedUntil, Bottleneck;
    BottleneckExceeds(s, now, t);
  }

  /** The written column tells, for every later time, whether the account is unavailable at that time. */
  ghost predicate ColumnIsExact(s: LimitState, now: Time) {
    forall t :: now <= t ==> (!IsAvailable(s, OpusClass, t) <==> Exceeds(DbLimitUntil(s, now), t))
  }

  /** The column is exact unless the status is rejected, which has no end, or a ban outlasts the bottleneck it is
      dropped for. */
  lemma ColumnIsExactWhen(s: LimitState, now: Time)
    ensures ColumnIsExact(s, now)
            <==> s.status != Some(Rejected) && !(Bottleneck(s, now).Some? && Exceeds(s.rateLimitedUntil, Bottleneck(s, now).value))
  {
    hide PreemptedUntil, Bottleneck;
    var b := Bottleneck(s, now);
    if s.status == Some(Rejected) {
      var late := if DbLimitUntil(s, now).Some? && DbLimitUntil(s, now).value > now then DbLimitUntil(s, now).value else now;
      assert !IsAvailable(s, OpusClass, late);
    } else {
      forall t | now <= t
        ensures !IsAvailable(s, OpusClass, t) <==> Exceeds(b, t) || Exceeds(s.rateLimitedUntil, t)
      {
        BottleneckExceeds(s, now, t);
      }
      if b.Some? && Exceeds(s.rateLimitedUntil, b.value) {
        BottleneckInFuture(s, now);
        assert !IsAvailable(s, OpusClass, b.value);
      }
    }
  }

  /** One response is enough to reach such a state: a 429 whose 5h window is full for another minute and which asks
      for an hour's delay leaves a column that ends after the minute. */
  lemma ColumnCanEndTooEarly()
    ensures var r := Response(429, NO_HEADERS.(fiveHour := Some(Window(HIT_THRESHOLD, 60 * SECOND, Allowed, None))),
                              NO_COUNTERS, Some(3600));
            Sendable(r) && !ColumnIsExact(Run([AbsorbHeaders(OpusClass, r, 0)]), 0)
  {
    var r := Response(429, NO_HEADERS.(fiveHour := Some(Window(HIT_THRESHOLD, 60 * SECOND, Allowed, None))), NO_COUNTERS, Some(3600));
    var step := AbsorbHeaders(OpusClass, r, 0);
    var s := Run([step]);
    OneMoreStep([], step);
    assert [] + [step] == [step];
    var n := ComputeNewState(DEFAULT_STATE, OpusClass, r, 0).value;
    assert n == DEFAULT_STATE.(fiveHour := r.unified.fiveHour, rateLimitedUntil := Some(3600 * SECOND));
    hide ComputeNewState;
    assert s.fiveHour == r.unified.fiveHour && s.rateLimitedUntil == Some(3600 * SECOND) && s.rpmTpm == None && s.sevenDay == None;
    assert Bottleneck(s, 0) == Some(60 * SECOND);
    ColumnIsExactWhen(s, 0);
  }

  lemma BottleneckInFuture(s: LimitState, now: Time)
    ensures Bottleneck(s, now).Some? ==> Bottleneck(s, now).value > now
  {
    hide PickCounters;
    if s.rpmTpm.Some? {
      PickedInFuture(PickWindow(PickWindow(None, s.fiveHour, now), s.sevenDay, now), s.rpmTpm.value.All(), now);
    }
  }

  lemma {:induction false} PickedInFuture(picked: Option<Time>, counters: seq<Option<Counter>>, now: Time)
    requires picked.Some? ==> picked.value > now
    ensures var p := PickCounters(picked, counters, now); p.Some? ==> p.value > now
    decreases |counters|
  {
    if counters != [] {
      var c := counters[0];
      PickedInFuture(if c.Some? && c.value.Preempted(now) then Later(picked, c.value.resetAt) else picked, counters[1..], now);
    }
  }

  // ---- isolation ----

  /** The parts of the state the selector reads for a class. */
  ghost predicate SameFor(s: LimitState, t: LimitState, c: ModelClass) {
    && s.status == t.status && s.rateLimitedUntil == t.rateLimitedUntil && s.rpmTpm == t.rpmTpm
    && s.fiveHour == t.fiveHour && s.sevenDay == t.sevenDay
    && (ScopedGroup(c).Some? ==> var g := ScopedGroup(c).value;
                                 && Get(s.scopedBans, g) == Get(t.scopedBans, g) && ScopedWindow(s, g) == ScopedWindow(t, g)
                                 && (g == SONNET ==> s.sonnetBan == t.sonnetBan && s.sonnetSevenDay == t.sonnetSevenDay))
  }

  lemma SameForJudges(s: LimitState, t: LimitState, c: ModelClass, now: Time)
    requires SameFor(s, t, c)
    ensures IsAvailable(s, c, now) == IsAvailable(t, c, now)
  {
    hide PreemptedUntil, JudgeScoped;
  }

  /** Nothing in the response concerns class c: no 5h window, no counters, no window for the account or for c. */
  predicate SilentAbout(r: Response, c: ModelClass) {
    && r.unified.fiveHour.None? && !r.counters.Any()
    && (r.unified.sevenDay.Some? ==> r.unified.LegacyGroup().Some?)
    && (ScopedGroup(c).Some? ==> !r.unified.ExplicitGroup(ScopedGroup(c).value))
  }

  lemma RouteIsolates(s: LimitState, u: UnifiedHeaders, c: ModelClass)
    requires u.sevenDay.Some? ==> u.LegacyGroup().Some? && u.LegacyGroup() != ScopedGroup(c)
    ensures SameFor(s, RouteSevenDay(s, u), c)
  {}

  lemma ExplicitIsolates(s: LimitState, group: string, w: Option<Window>, c: ModelClass)
    requires w.Some? ==> ScopedGroup(c) != Some(group)
    ensures SameFor(s, SetIfPresent(s, group, w), c)
  {}

  lemma ApplyParsedIsolates(s: LimitState, u: UnifiedHeaders, c: ModelClass)
    requires u.ClaimGroup().Some? && u.ClaimGroup() != ScopedGroup(c) && u.fiveHour.None?
    requires u.sevenDay.Some? ==> u.LegacyGroup().Some?
    requires ScopedGroup(c).Some? ==> !u.ExplicitGroup(ScopedGroup(c).value)
    ensures SameFor(s, ApplyParsed(s, u), c)
  {
    hide MergeNotes, RouteSevenDay, SetIfPresent;
    var noted := s.(fiveHour := Or(u.fiveHour, s.fiveHour), notes := MergeNotes(s.notes, u.notes));
    var sonnet := SetIfPresent(noted, SONNET, u.sonnet);
    var explicit := SetIfPresent(sonnet, FABLE, u.fable);
    assert SameFor(s, noted, c);
    ExplicitIsolates(noted, SONNET, u.sonnet, c);
    ExplicitIsolates(sonnet, FABLE, u.fable, c);
    RouteIsolates(explicit, u, c);
  }

  /** A response with a claim of a model group never touches the account's status or ban, whatever else it carries. */
  lemma ScopedClaimSparesTheAccount(prev: LimitState, requested: ModelClass, r: Response, now: Time)
    requires r.unified.ClaimGroup().Some?
    ensures var n := ComputeNewState(prev, requested, r, now);
            n.Some? && n.value.status == prev.status && n.value.rateLimitedUntil == prev.rateLimitedUntil
  {
    hide ApplyParsed, MergeRpmTpm, RetryUntil;
    ParsedSparesTheAccount(prev, r.unified);
  }

  lemma ParsedSparesTheAccount(s: LimitState, u: UnifiedHeaders)
    requires u.ClaimGroup().Some?
    ensures ApplyParsed(s, u).status == s.status && ApplyParsed(s, u).rateLimitedUntil == s.rateLimitedUntil
  {
    hide MergeNotes;
  }

  /** Such a response changes the availability of another class only through a 5h window, counters, an account-level
      7d window, or an explicit window of that class. */
  lemma ScopedClaimIsIsolated(prev: LimitState, requested: ModelClass, r: Response, now: Time, c: ModelClass, t: Time)
    requires r.unified.ClaimGroup().Some? && r.unified.ClaimGroup() != ScopedGroup(c) && SilentAbout(r, c)
    ensures IsAvailable(ComputeNewState(prev, requested, r, now).value, c, t) == IsAvailable(prev, c, t)
  {
    hide ApplyParsed, JudgeAccount, JudgeScoped, BanUntil;
    ApplyParsedIsolates(prev, r.unified, c);
    SameForJudges(prev, ComputeNewState(prev, requested, r, now).value, c, t);
  }

  /** A 429 without any rate-limit headers takes a request's own model group out, and only that one. */
  lemma BareRejectionIsIsolated(prev: LimitState, requested: ModelClass, r: Response, now: Time, c: ModelClass, t: Time)
    requires !HasHeaders(r) && r.httpStatus == 429 && ScopedGroup(requested).Some? && c != requested
    ensures IsAvailable(ComputeNewState(prev, requested, r, now).value, c, t) == IsAvailable(prev, c, t)
  {
    hide JudgeAccount, JudgeScoped, BanUntil;
    SameForJudges(prev, ComputeNewState(prev, requested, r, now).value, c, t);
  }

  function ClassOf(group: string): ModelClass { if group == SONNET then SonnetClass else FableClass }

  /** And it does take it out: a claimed group's 429 blocks the group's class until the reset it names,
      or for the delay it asks for. */
  lemma ScopedRejectionBlocks(prev: LimitState, requested: ModelClass, r: Response, now: Time, t: Time)
    requires r.httpStatus == 429 && r.unified.ClaimGroup().Some?
    requires Exceeds(Or(r.unified.notes.resetAt, RetryUntil(now, r.retryAfter)), t)
    ensures !IsAvailable(ComputeNewState(prev, requested, r, now).value, ClassOf(r.unified.ClaimGroup().value), t)
  {
    hide ApplyParsed, JudgeAccount, BanUntil;
  }

  /** Over a whole run of such responses, an account once available to other classes stays available to them. */
  lemma {:induction false} ScopedRunNeverBlocksOthers(s: LimitState, steps: seq<LimitStep>, c: ModelClass, t: Time)
    requires forall k :: 0 <= k < |steps| ==>
               && steps[k].AbsorbHeaders? && SilentAbout(steps[k].response, c)
               && steps[k].response.unified.ClaimGroup().Some? && steps[k].response.unified.ClaimGroup() != ScopedGroup(c)
    ensures IsAvailable(RunFrom(s, steps), c, t) == IsAvailable(s, c, t)
  {
    hide ComputeNewState, FlushReason, JudgeAccount, JudgeScoped, IsAvailable;
    if steps != [] {
      var front, last := steps[..|steps| - 1], steps[|steps| - 1];
      ScopedRunNeverBlocksOthers(s, front, c, t);
      var before := RunFrom(s, front);
      ScopedClaimSparesTheAccount(before, last.modelClass, last.response, last.now);
      ScopedClaimIsIsolated(before, last.modelClass, last.response, last.now, c, t);
      FlushTimeIsInvisible(ComputeNewState(before, last.modelClass, last.response, last.now).value, Some(last.now), c, t);
    }
  }

  lemma FlushTimeIsInvisible(s: LimitState, at: Option<Time>, c: ModelClass, t: Time)
    ensures IsAvailable(s.(lastFlushAt := at), c, t) == IsAvailable(s, c, t)
  {
    SameForJudges(s, s.(lastFlushAt := at), c, t);
  }
}
