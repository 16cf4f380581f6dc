/** When the state is written back (src/service/limit.rs): which losses of availability go unreported. */
module LimitFlush {
  import opened Wrappers
  import opened Pricing
  import opened Limits
  import opened LimitMirrors
  import opened LimitAvailability

  /** A response that makes a class unavailable now without any reason to write the state back. */
  ghost predicate SilentLoss(prev: LimitState, c: ModelClass, now: Time, requested: ModelClass, r: Response) {
    var n := ComputeNewState(prev, requested, r, now);
    n.Some? && !IsAvailable(n.value, c, now) && FlushReason(prev, n.value, now).None?
  }

  /** Low and allowed: a window whose filling up or rejection will be noticed. */
  predicate Watched(w: Option<Window>) { UtilizationOf(w) < HIT_THRESHOLD && StatusOf(w) != AllowedWarning }

  /** No trace left that hides a new loss: no warning status, no ban on record, even an expired one, and no window
      at the threshold, even one already reset. */
  predicate Fresh(prev: LimitState, c: ModelClass) {
    && prev.status != Some(AllowedWarning) && prev.rateLimitedUntil.None?
    && UtilizationOf(prev.fiveHour) < HIT_THRESHOLD && UtilizationOf(prev.sevenDay) < HIT_THRESHOLD
    && (ScopedGroup(c).Some? ==> Watched(ScopedWindow(prev, ScopedGroup(c).value)))
  }

  // ---- a fresh state loses nothing silently ----

  lemma AccountLossIsNoticed(prev: LimitState, n: LimitState, c: ModelClass, now: Time)
    requires Fresh(prev, c) && JudgeAccount(prev, now).Available? && JudgeAccount(n, now).Unavailable?
    ensures FlushReason(prev, n, now).Some?
  {
    hide PreemptedUntil, WindowAddedTo, ScopedTightened, ScopedCrossed, ScopedSurpassed, ScopedBanExtended;
  }

  lemma ScopedLossIsNoticed(prev: LimitState, n: LimitState, c: ModelClass, now: Time)
    requires Mirrored(prev) && Mirrored(n) && ScopedGroup(c).Some?
    requires Fresh(prev, c) && IsAvailable(prev, c, now) && JudgeAccount(n, now).Available? && !IsAvailable(n, c, now)
    ensures WindowAddedTo(prev, n) || ScopedTightened(prev, n) || ScopedCrossed(prev, n) || ScopedBanExtended(prev, n)
  {
    hide PreemptedUntil;
    var g := ScopedGroup(c).value;
    if Judge(n, c, now).gate == ScopedBanned {
      assert g in n.scopedBans && (g in prev.scopedBans ==> prev.scopedBans[g] <= now);
    } else {
      assert g in n.scopedWeekly;
    }
  }

  lemma NoSilentLossWhenFresh(prev: LimitState, c: ModelClass, now: Time, requested: ModelClass, r: Response)
    requires Mirrored(prev) && IsAvailable(prev, c, now) && Fresh(prev, c)
    ensures !SilentLoss(prev, c, now, requested, r)
  {
    hide ComputeNewState, JudgeAccount, Fresh, Mirrored, WindowAddedTo, ScopedTightened, ScopedCrossed, ScopedBanExtended, ScopedSurpassed;
    HeadersMirror(prev, requested, r, now);
    var computed := ComputeNewState(prev, requested, r, now);
    if computed.Some? && !IsAvailable(computed.value, c, now) {
      if JudgeAccount(computed.value, now).Unavailable? {
        AccountLossIsNoticed(prev, computed.value, c, now);
      } else {
        ScopedLossIsNoticed(prev, computed.value, c, now);
      }
    }
  }

  // ---- each trace hides a loss ----

  /** Written back recently, so that only a change can be a reason. */
  predicate RecentlyFlushed(s: LimitState, now: Time) { s.lastFlushAt.Some? && now - s.lastFlushAt.value < DB_FLUSH_TTL }

  function Only(u: UnifiedHeaders): Response { Response(200, u, NO_COUNTERS, None) }

  function FullWindow(now: Time): Window { Window(HIT_THRESHOLD, NextSecond(now), Allowed, None) }
  function RejectedWindow(now: Time): Window { Window(0.0, NextSecond(now), Rejected, None) }

  /** Headers that say nothing but that the status is rejected, or that a window is full or rejected. */
  function RejectedResponse(): Response { Only(NO_HEADERS.(status := Some(Rejected))) }
  function FullFiveHour(now: Time): Response { Only(NO_HEADERS.(fiveHour := Some(FullWindow(now)))) }
  function FullSevenDay(now: Time): Response { Only(NO_HEADERS.(sevenDay := Some(FullWindow(now)))) }
  const BareRejection := Response(429, NO_HEADERS, NO_COUNTERS, None)

  function ScopedResponse(group: string, w: Window): Response {
    Only(if group == SONNET then NO_HEADERS.(sonnet := Some(w)) else NO_HEADERS.(fable := Some(w)))
  }

  /** After a warning, a rejection is not a change of status. */
  lemma WarningHidesRejection(prev: LimitState, c: ModelClass, now: Time)
    requires RecentlyFlushed(prev, now) && prev.status == Some(AllowedWarning)
    ensures SilentLoss(prev, c, now, OpusClass, RejectedResponse())
  {
    hide PreemptedUntil;
  }

  /** A ban on record, expired or not, hides the next one. */
  lemma OldBanHidesNew(prev: LimitState, c: ModelClass, now: Time)
    requires RecentlyFlushed(prev, now) && prev.rateLimitedUntil.Some?
    ensures SilentLoss(prev, c, now, OpusClass, BareRejection)
  {
    hide PreemptedUntil;
  }

  /** A window that was full before its reset hides that it is full again. */
  lemma OldWindowHidesNew(prev: LimitState, c: ModelClass, now: Time)
    requires RecentlyFlushed(prev, now)
    ensures UtilizationOf(prev.fiveHour) >= HIT_THRESHOLD ==> SilentLoss(prev, c, now, OpusClass, FullFiveHour(now))
    ensures UtilizationOf(prev.sevenDay) >= HIT_THRESHOLD ==> SilentLoss(prev, c, now, OpusClass, FullSevenDay(now))
  {
    hide PreemptedUntil;
  }

  lemma ScopedResponseSets(prev: LimitState, c: ModelClass, now: Time, group: string, w: Window)
    requires group == SONNET || group == FABLE
    ensures ComputeNewState(prev, c, ScopedResponse(group, w), now) == Some(SetScopedWindow(prev, ScopedLimit(group, w)))
  {}

  /** Replacing one stored window is a reason only when it tightens, crosses the threshold or newly surpasses one. */
  lemma OneWindowReplaced(prev: LimitState, now: Time, group: string, w: Window)
    requires RecentlyFlushed(prev, now) && group in prev.scopedWeekly && w.surpassedThreshold.None?
    requires w.status == Allowed || StatusOf(ScopedWindow(prev, group)) != Allowed
    requires w.utilization < HIT_THRESHOLD || UtilizationOf(ScopedWindow(prev, group)) >= HIT_THRESHOLD
    ensures FlushReason(prev, SetScopedWindow(prev, ScopedLimit(group, w)), now).None?
  {
    hide PreemptedUntil;
    var n := SetScopedWindow(prev, ScopedLimit(group, w));
    assert forall g :: ScopedWindow(n, g) == if g == group then Some(w) else ScopedWindow(prev, g);
  }

  /** A response with nothing but a full or a rejected window for the class's own group takes the class away. */
  lemma ReplacedWindowBlocks(prev: LimitState, c: ModelClass, now: Time, w: Window)
    requires Mirrored(prev) && ScopedGroup(c).Some? && (w.status == Rejected || w.Hit(now))
    ensures !IsAvailable(SetScopedWindow(prev, ScopedLimit(ScopedGroup(c).value, w)), c, now)
  {
    hide JudgeAccount;
  }

  /** A group's window that was full before its reset hides that it is full again. */
  lemma OldScopedWindowHidesNew(prev: LimitState, c: ModelClass, now: Time)
    requires RecentlyFlushed(prev, now) && ScopedGroup(c).Some? && Mirrored(prev)
    requires UtilizationOf(ScopedWindow(prev, ScopedGroup(c).value)) >= HIT_THRESHOLD
    ensures SilentLoss(prev, c, now, c, ScopedResponse(ScopedGroup(c).value, FullWindow(now)))
  {
    hide ComputeNewState, ScopedResponse, FlushReason, IsAvailable, Mirrored, SetScopedWindow, NextSecond;
    ScopedResponseSets(prev, c, now, ScopedGroup(c).value, FullWindow(now));
    ReplacedWindowBlocks(prev, c, now, FullWindow(now));
    OneWindowReplaced(prev, now, ScopedGroup(c).value, FullWindow(now));
  }

  /** One under warning hides its rejection. */
  lemma ScopedWarningHidesRejection(prev: LimitState, c: ModelClass, now: Time)
    requires RecentlyFlushed(prev, now) && ScopedGroup(c).Some? && Mirrored(prev)
    requires StatusOf(ScopedWindow(prev, ScopedGroup(c).value)) == AllowedWarning
    ensures SilentLoss(prev, c, now, c, ScopedResponse(ScopedGroup(c).value, RejectedWindow(now)))
  {
    hide ComputeNewState, ScopedResponse, FlushReason, IsAvailable, Mirrored, SetScopedWindow, NextSecond;
    ScopedResponseSets(prev, c, now, ScopedGroup(c).value, RejectedWindow(now));
    ReplacedWindowBlocks(prev, c, now, RejectedWindow(now));
    OneWindowReplaced(prev, now, ScopedGroup(c).value, RejectedWindow(now));
  }

  /** From a recently written state available to a class, some response that headers can carry takes the class away
      without a reason to write the state back if and only if the state is not fresh. */
  lemma SilentLossExactly(prev: LimitState, c: ModelClass, now: Time)
    requires RecentlyFlushed(prev, now) && Mirrored(prev) && IsAvailable(prev, c, now)
    ensures (exists requested, r :: Sendable(r) && SilentLoss(prev, c, now, requested, r)) <==> !Fresh(prev, c)
  {
    hide SilentLoss, Mirrored, NextSecond;
    if Fresh(prev, c) {
      forall requested, r
        ensures !SilentLoss(prev, c, now, requested, r)
      {
        NoSilentLossWhenFresh(prev, c, now, requested, r);
      }
    } else {
      var r := HidingResponse(prev, c, now);
      var requested :| SilentLoss(prev, c, now, requested, r);
    }
  }

  /** A response that a state which is not fresh lets through silently. */
  lemma HidingResponse(prev: LimitState, c: ModelClass, now: Time) returns (r: Response)
    requires RecentlyFlushed(prev, now) && Mirrored(prev) && IsAvailable(prev, c, now) && !Fresh(prev, c)
    ensures Sendable(r) && exists requested :: SilentLoss(prev, c, now, requested, r)
  {
    hide SilentLoss, Mirrored, NextSecond;
    if prev.status == Some(AllowedWarning) {
      r := RejectedResponse();
      WarningHidesRejection(prev, c, now);
    } else if prev.rateLimitedUntil.Some? {
      r := BareRejection;
      OldBanHidesNew(prev, c, now);
    } else if UtilizationOf(prev.fiveHour) >= HIT_THRESHOLD {
      r := FullFiveHour(now);
      OldWindowHidesNew(prev, c, now);
    } else if UtilizationOf(prev.sevenDay) >= HIT_THRESHOLD {
      r := FullSevenDay(now);
      OldWindowHidesNew(prev, c, now);
    } else if UtilizationOf(ScopedWindow(prev, ScopedGroup(c).value)) >= HIT_THRESHOLD {
      r := ScopedResponse(ScopedGroup(c).value, FullWindow(now));
      OldScopedWindowHidesNew(prev, c, now);
    } else {
      r := ScopedResponse(ScopedGroup(c).value, RejectedWindow(now));
      ScopedWarningHidesRejection(prev, c, now);
    }
  }
}
