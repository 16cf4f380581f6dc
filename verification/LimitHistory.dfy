/** The rate-limit state as a digest of everything absorbed (src/service/limit.rs): each field holds the latest value
    that some response or report carried for it. */
module LimitHistory {
  import opened Wrappers
  import opened Pricing
  import opened Limits

  function Map<T>(steps: seq<LimitStep>, carried: LimitStep -> Option<T>): seq<Option<T>> {
    seq(|steps|, i requires 0 <= i < |steps| => carried(steps[i]))
  }

  // ---- what a step carries for a field ----

  function FiveHourIn(step: LimitStep): Option<Window> {
    match step case AbsorbHeaders(_, r, _) => r.unified.fiveHour case IngestUsage(usage) => FromJson(usage.fiveHour)
  }

  /** Not when it is routed to a model group. */
  function SevenDayIn(step: LimitStep): Option<Window> {
    match step
    case AbsorbHeaders(_, r, _) => if r.unified.LegacyGroup().Some? then None else r.unified.sevenDay
    case IngestUsage(usage) => Or(FromJson(usage.sevenDayOpus), FromJson(usage.sevenDay))
  }

  /** Not with the claim of a model group. */
  function StatusIn(step: LimitStep): Option<Status> {
    if step.AbsorbHeaders? && step.response.unified.ClaimGroup().None? then step.response.unified.status else None
  }

  function ResetIn(step: LimitStep): Option<Time> { if step.AbsorbHeaders? then step.response.unified.notes.resetAt else None }

  /** A 429 bans the account when it claims no group and dates no reset: for its delay if it has other headers,
      for its delay or the default if it has none and the request was for no group either. */
  function BanIn(step: LimitStep): Option<Time> {
    if step.IngestUsage? || step.response.httpStatus != 429 then None
    else
      var r := step.response;
      if !HasHeaders(r) then
        if ScopedGroup(step.modelClass).Some? then None else Some(BanUntil(step.now, r.retryAfter.GetOr(DEFAULT_429_BAN)))
      else if r.unified.ClaimGroup().Some? || r.unified.notes.resetAt.Some? then None
      else RetryUntil(step.now, r.retryAfter)
  }

  datatype Kind = Requests | Tokens | InputTokens | OutputTokens

  function Of(c: RpmTpm, kind: Kind): Option<Counter> {
    match kind case Requests => c.requests case Tokens => c.tokens case InputTokens => c.inputTokens case OutputTokens => c.outputTokens
  }

  function CounterIn(step: LimitStep, kind: Kind): Option<Counter> {
    if step.AbsorbHeaders? then Of(step.response.counters, kind) else None
  }

  function CounterNow(s: LimitState, kind: Kind): Option<Counter> { Of(s.rpmTpm.GetOr(NO_COUNTERS), kind) }

  // ---- one step ----

  lemma {:induction false} WindowsKeep(s: LimitState, items: seq<ScopedLimit>)
    ensures var t := SetScopedWindows(s, items);
            t.fiveHour == s.fiveHour && t.sevenDay == s.sevenDay && t.status == s.status && t.rpmTpm == s.rpmTpm
            && t.notes == s.notes && t.rateLimitedUntil == s.rateLimitedUntil
  {
    if items != [] { WindowsKeep(s, items[..|items| - 1]); }
  }

  lemma UsageCarries(s: LimitState, usage: UsageJson)
    ensures var t, step := ApplyUsageJson(s, usage), IngestUsage(usage);
            && t.fiveHour == Or(FiveHourIn(step), s.fiveHour) && t.sevenDay == Or(SevenDayIn(step), s.sevenDay)
            && t.status == s.status && t.rpmTpm == s.rpmTpm && t.notes == s.notes && t.rateLimitedUntil == s.rateLimitedUntil
  {
    hide ScopedFromJson, FromJson, SetScopedWindows, SetIfPresent, HasGroup;
    var accounted := s.(fiveHour := Or(FromJson(usage.fiveHour), s.fiveHour),
                        sevenDay := Or(FromJson(usage.sevenDayOpus), Or(FromJson(usage.sevenDay), s.sevenDay)));
    var cleared := if usage.limits.Some? then accounted.(scopedWeekly := map[], sonnetSevenDay := None) else accounted;
    var scoped := ScopedFromJson(usage.limits.GetOr([]));
    WindowsKeep(cleared, scoped);
    WindowKeeps(SetScopedWindows(cleared, scoped), SONNET, FromJson(usage.sevenDaySonnet));
  }

  lemma ParsedCarries(s: LimitState, u: UnifiedHeaders)
    ensures var t := ApplyParsed(s, u);
            && t.fiveHour == Or(u.fiveHour, s.fiveHour)
            && t.sevenDay == Or(if u.LegacyGroup().Some? then None else u.sevenDay, s.sevenDay)
            && t.status == Or(if u.ClaimGroup().None? then u.status else None, s.status)
            && t.notes.resetAt == Or(u.notes.resetAt, s.notes.resetAt)
            && t.rpmTpm == s.rpmTpm && t.rateLimitedUntil == s.rateLimitedUntil
  {
    hide SetIfPresent, RouteSevenDay;
    var noted := s.(fiveHour := Or(u.fiveHour, s.fiveHour), notes := MergeNotes(s.notes, u.notes));
    WindowKeeps(noted, SONNET, u.sonnet);
    WindowKeeps(SetIfPresent(noted, SONNET, u.sonnet), FABLE, u.fable);
    RouteCarries(SetIfPresent(SetIfPresent(noted, SONNET, u.sonnet), FABLE, u.fable), u);
  }

  lemma WindowKeeps(s: LimitState, group: string, w: Option<Window>)
    ensures var t := SetIfPresent(s, group, w);
            t == s.(scopedWeekly := t.scopedWeekly, sonnetSevenDay := t.sonnetSevenDay)
  {}

  lemma RouteCarries(s: LimitState, u: UnifiedHeaders)
    ensures var t := RouteSevenDay(s, u);
            t == s.(scopedWeekly := t.scopedWeekly, sonnetSevenDay := t.sonnetSevenDay,
                    sevenDay := Or(if u.LegacyGroup().Some? then None else u.sevenDay, s.sevenDay))
  {}

  lemma CountersCarry(s: LimitState, c: RpmTpm, kind: Kind)
    ensures var t := ApplyCounters(s, c);
            && CounterNow(t, kind) == Or(Of(c, kind), CounterNow(s, kind))
            && t == s.(rpmTpm := t.rpmTpm)
  {}

  lemma HeadersCarry(s: LimitState, c: ModelClass, r: Response, now: Time, kind: Kind)
    ensures var t, step := ComputeNewState(s, c, r, now).GetOr(s), LimitStep.AbsorbHeaders(c, r, now);
            && t.fiveHour == Or(FiveHourIn(step), s.fiveHour) && t.sevenDay == Or(SevenDayIn(step), s.sevenDay)
            && t.status == Or(StatusIn(step), s.status) && t.notes.resetAt == Or(ResetIn(step), s.notes.resetAt)
            && t.rateLimitedUntil == Or(BanIn(step), s.rateLimitedUntil)
            && CounterNow(t, kind) == Or(CounterIn(step, kind), CounterNow(s, kind))
  {
    hide ApplyParsed, ApplyCounters, ApplyRejection, RetryUntil, BanUntil, SetScopedBan;
    var parsed := if r.unified.AnyPresent() then ApplyParsed(s, r.unified) else s;
    var counted := ApplyCounters(parsed, r.counters);
    if HasHeaders(r) {
      ParsedCarries(s, r.unified);
      CountersCarry(parsed, r.counters, kind);
      RejectionCarries(counted, r, now);
    } else if ScopedGroup(c).Some? {
      BanKeeps(s, ScopedGroup(c).value, BanUntil(now, r.retryAfter.GetOr(DEFAULT_429_BAN)));
    }
  }

  lemma BanKeeps(s: LimitState, group: string, until: Time)
    ensures var t := SetScopedBan(s, group, until); t == s.(scopedBans := t.scopedBans, sonnetBan := t.sonnetBan)
  {}

  lemma RejectionCarries(s: LimitState, r: Response, now: Time)
    requires HasHeaders(r)
    ensures var t := ApplyRejection(s, r, now);
            && t == s.(rateLimitedUntil := t.rateLimitedUntil, scopedBans := t.scopedBans, sonnetBan := t.sonnetBan)
            && t.rateLimitedUntil == Or(if r.unified.ClaimGroup().Some? || r.unified.notes.resetAt.Some? then None
                                        else RetryUntil(now, r.retryAfter), s.rateLimitedUntil)
  {
    hide RetryUntil;
  }

  lemma StepCarries(s: LimitState, step: LimitStep, kind: Kind)
    ensures var t := Step(s, step);
            && t.fiveHour == Or(FiveHourIn(step), s.fiveHour) && t.sevenDay == Or(SevenDayIn(step), s.sevenDay)
            && t.status == Or(StatusIn(step), s.status) && t.notes.resetAt == Or(ResetIn(step), s.notes.resetAt)
            && t.rateLimitedUntil == Or(BanIn(step), s.rateLimitedUntil)
            && CounterNow(t, kind) == Or(CounterIn(step, kind), CounterNow(s, kind))
  {
    hide ComputeNewState, ApplyUsageJson, FiveHourIn, SevenDayIn, FlushReason;
    match step
    case AbsorbHeaders(c, r, now) => HeadersCarry(s, c, r, now, kind);
    case IngestUsage(usage) => UsageCarries(s, usage);
  }

  // ---- runs ----

  lemma LatestOfMore<T>(steps: seq<LimitStep>, carried: LimitStep -> Option<T>)
    requires steps != []
    ensures Latest(Map(steps, carried)) == Or(carried(steps[|steps| - 1]), Latest(Map(steps[..|steps| - 1], carried)))
  {
    assert Map(steps, carried)[..|steps| - 1] == Map(steps[..|steps| - 1], carried);
  }

  /** After any run, every field the account-level verdict is read from holds the latest value carried for it. */
  lemma {:induction false} RunHoldsTheLatest(steps: seq<LimitStep>, kind: Kind)
    ensures var s := Run(steps);
            && s.fiveHour == Latest(Map(steps, FiveHourIn)) && s.sevenDay == Latest(Map(steps, SevenDayIn))
            && s.status == Latest(Map(steps, StatusIn)) && s.notes.resetAt == Latest(Map(steps, ResetIn))
            && s.rateLimitedUntil == Latest(Map(steps, BanIn))
            && CounterNow(s, kind) == Latest(Map(steps, step => CounterIn(step, kind)))
  {
    hide Step, FiveHourIn, SevenDayIn, StatusIn, ResetIn, BanIn, CounterIn;
    if steps != [] {
      var front, last := steps[..|steps| - 1], steps[|steps| - 1];
      RunHoldsTheLatest(front, kind);
      StepCarries(Run(front), last, kind);
      LatestOfMore(steps, FiveHourIn);
      LatestOfMore(steps, SevenDayIn);
      LatestOfMore(steps, StatusIn);
      LatestOfMore(steps, ResetIn);
      LatestOfMore(steps, BanIn);
      LatestOfMore(steps, step => CounterIn(step, kind));
    }
  }

  /** The display fields a response carries; a fallback percentage or a disabled reason alone is not looked at. */
  function NotesIn(step: LimitStep): Notes {
    if step.IngestUsage? then NO_NOTES
    else
      var u := step.response.unified;
      if u.fiveHour.None? && u.sevenDay.None? && u.sonnet.None? && u.fable.None? && u.status.None? && u.notes.representativeClaim.None?
         && u.notes.resetAt.None? && u.notes.overageStatus.None? && u.notes.overageResetAt.None?
      then NO_NOTES else u.notes
  }

  lemma StepNotes(s: LimitState, step: LimitStep)
    ensures var t, n := Step(s, step).notes, NotesIn(step);
            && t.representativeClaim == Or(n.representativeClaim, s.notes.representativeClaim)
            && t.resetAt == Or(n.resetAt, s.notes.resetAt) && t.fallbackPercentage == Or(n.fallbackPercentage, s.notes.fallbackPercentage)
            && t.overageStatus == Or(n.overageStatus, s.notes.overageStatus)
            && t.overageDisabledReason == Or(n.overageDisabledReason, s.notes.overageDisabledReason)
            && t.overageResetAt == Or(n.overageResetAt, s.notes.overageResetAt)
  {
    hide ApplyUsageJson, ApplyParsed, ApplyCounters, ApplyRejection, SetScopedBan, FlushReason;
    match step
    case IngestUsage(usage) => UsageCarries(s, usage);
    case AbsorbHeaders(c, r, now) =>
      var parsed := if r.unified.AnyPresent() then ApplyParsed(s, r.unified) else s;
      ParsedNotes(s, r.unified);
      CountersCarry(parsed, r.counters, Requests);
      if HasHeaders(r) { RejectionCarries(ApplyCounters(parsed, r.counters), r, now); }
      BanKeeps(s, ScopedGroup(c).GetOr(SONNET), BanUntil(now, r.retryAfter.GetOr(DEFAULT_429_BAN)));
  }

  lemma ParsedNotes(s: LimitState, u: UnifiedHeaders)
    ensures ApplyParsed(s, u).notes == MergeNotes(s.notes, u.notes)
  {
    hide SetIfPresent, RouteSevenDay, MergeNotes;
    var noted := s.(fiveHour := Or(u.fiveHour, s.fiveHour), notes := MergeNotes(s.notes, u.notes));
    WindowKeeps(noted, SONNET, u.sonnet);
    WindowKeeps(SetIfPresent(noted, SONNET, u.sonnet), FABLE, u.fable);
    RouteCarries(SetIfPresent(SetIfPresent(noted, SONNET, u.sonnet), FABLE, u.fable), u);
  }

  /** And every display field is the latest one carried. */
  lemma {:induction false} RunHoldsTheNotes(steps: seq<LimitStep>)
    ensures var n := Run(steps).notes;
            && n.representativeClaim == Latest(Map(steps, step => NotesIn(step).representativeClaim))
            && n.resetAt == Latest(Map(steps, step => NotesIn(step).resetAt))
            && n.fallbackPercentage == Latest(Map(steps, step => NotesIn(step).fallbackPercentage))
            && n.overageStatus == Latest(Map(steps, step => NotesIn(step).overageStatus))
            && n.overageDisabledReason == Latest(Map(steps, step => NotesIn(step).overageDisabledReason))
            && n.overageResetAt == Latest(Map(steps, step => NotesIn(step).overageResetAt))
  {
    hide Step, NotesIn;
    if steps != [] {
      var front, last := steps[..|steps| - 1], steps[|steps| - 1];
      RunHoldsTheNotes(front);
      StepNotes(Run(front), last);
      LatestOfMore(steps, step => NotesIn(step).representativeClaim);
      LatestOfMore(steps, step => NotesIn(step).resetAt);
      LatestOfMore(steps, step => NotesIn(step).fallbackPercentage);
      LatestOfMore(steps, step => NotesIn(step).overageStatus);
      LatestOfMore(steps, step => NotesIn(step).overageDisabledReason);
      LatestOfMore(steps, step => NotesIn(step).overageResetAt);
    }
  }

  // ---- model groups ----

  /** The window headers carry for a group: its explicit one, or the unqualified one under the response's status. */
  function GroupWindowIn(u: UnifiedHeaders, group: string): Option<Window> {
    if u.sevenDay.Some? && u.LegacyGroup() == Some(group) then
      Some(u.sevenDay.value.(status := u.status.GetOr(u.sevenDay.value.status)))
    else if group == SONNET then u.sonnet
    else if group == FABLE then u.fable
    else None
  }

  /** The last usable entry of a report for a group. */
  function ListedWindow(items: seq<JsonLimit>, group: string): Option<Window> {
    if items == [] then None
    else
      var item := items[|items| - 1];
      if NormalGroup(item.modelGroup) == group && group != "" && item.utilization >= 0.0
      then Some(Window(item.utilization / 100.0, item.resetsAt, Allowed, None))
      else ListedWindow(items[..|items| - 1], group)
  }

  /** A report that lists limits replaces a group's window; one that does not leaves it. The fixed Sonnet field
      counts when the list has no Sonnet. */
  function WindowAfter(before: Option<Window>, step: LimitStep, group: string): Option<Window> {
    match step
    case AbsorbHeaders(_, r, _) => Or(GroupWindowIn(r.unified, group), before)
    case IngestUsage(usage) =>
      Or(ListedWindow(usage.limits.GetOr([]), group),
         Or(if group == SONNET then FromJson(usage.sevenDaySonnet) else None, if usage.limits.Some? then None else before))
  }

  /** A 429 bans the group its claim names, until the reset it dates or for its delay; without any headers,
      the group of the request. */
  function GroupBanIn(step: LimitStep, group: string): Option<Time> {
    if step.IngestUsage? || step.response.httpStatus != 429 then None
    else
      var r := step.response;
      if !HasHeaders(r) then
        if ScopedGroup(step.modelClass) == Some(group) then Some(BanUntil(step.now, r.retryAfter.GetOr(DEFAULT_429_BAN))) else None
      else if r.unified.ClaimGroup() == Some(group) then Or(r.unified.notes.resetAt, RetryUntil(step.now, r.retryAfter))
      else None
  }

  function WindowAfterAll(steps: seq<LimitStep>, group: string): Option<Window> {
    if steps == [] then None else WindowAfter(WindowAfterAll(steps[..|steps| - 1], group), steps[|steps| - 1], group)
  }

  lemma {:induction false} SetWindowsLast(s: LimitState, items: seq<JsonLimit>, group: string)
    ensures ScopedWindow(SetScopedWindows(s, ScopedFromJson(items)), group) == Or(ListedWindow(items, group), ScopedWindow(s, group))
    ensures SetScopedWindows(s, ScopedFromJson(items)).scopedBans == s.scopedBans
    ensures HasGroup(ScopedFromJson(items), SONNET) <==> ListedWindow(items, SONNET).Some?
  {
    hide NormalGroup, SetScopedWindows, HasGroup, ScopedFromJson;
    if items == [] {
      NothingListed(s);
    } else {
      var front, item := items[..|items| - 1], items[|items| - 1];
      SetWindowsLast(s, front, group);
      var last := ScopedLimit(NormalGroup(item.modelGroup), Window(item.utilization / 100.0, item.resetsAt, Allowed, None));
      LastListed(items);
      SetOneMoreWindow(s, ScopedFromJson(front), last);
    }
  }

  lemma NothingListed(s: LimitState)
    ensures ScopedFromJson([]) == [] && SetScopedWindows(s, []) == s && !HasGroup([], SONNET)
  {}

  lemma LastListed(items: seq<JsonLimit>)
    requires items != []
    ensures var item, earlier := items[|items| - 1], ScopedFromJson(items[..|items| - 1]);
            ScopedFromJson(items) == if NormalGroup(item.modelGroup) == "" || item.utilization < 0.0 then earlier
              else earlier + [ScopedLimit(NormalGroup(item.modelGroup), Window(item.utilization / 100.0, item.resetsAt, Allowed, None))]
  {
    hide NormalGroup;
  }

  lemma SetOneMoreWindow(s: LimitState, items: seq<ScopedLimit>, item: ScopedLimit)
    ensures SetScopedWindows(s, items + [item]) == SetScopedWindow(SetScopedWindows(s, items), item)
    ensures HasGroup(items + [item], SONNET) <==> HasGroup(items, SONNET) || item.modelGroup == SONNET
  {
    hide SetScopedWindow;
    assert (items + [item])[..|items|] == items;
    if HasGroup(items, SONNET) {
      var k :| 0 <= k < |items| && items[k].modelGroup == SONNET;
      assert (items + [item])[k].modelGroup == SONNET;
    }
    if item.modelGroup == SONNET { assert (items + [item])[|items|].modelGroup == SONNET; }
  }

  lemma ParsedWindow(s: LimitState, u: UnifiedHeaders, group: string)
    ensures ScopedWindow(ApplyParsed(s, u), group) == Or(GroupWindowIn(u, group), ScopedWindow(s, group))
    ensures ApplyParsed(s, u).scopedBans == s.scopedBans
  {
    hide MergeNotes, SetIfPresent, RouteSevenDay, ScopedWindow;
    var noted := s.(fiveHour := Or(u.fiveHour, s.fiveHour), notes := MergeNotes(s.notes, u.notes));
    SameWindows(s, noted, group);
    SetWindow(noted, SONNET, u.sonnet, group);
    SetWindow(SetIfPresent(noted, SONNET, u.sonnet), FABLE, u.fable, group);
    var explicit := SetIfPresent(SetIfPresent(noted, SONNET, u.sonnet), FABLE, u.fable);
    RoutedWindow(explicit, u, group);
    SameWindows(RouteSevenDay(explicit, u), ApplyParsed(s, u), group);
  }

  lemma SameWindows(s: LimitState, t: LimitState, group: string)
    requires s.scopedWeekly == t.scopedWeekly
    ensures ScopedWindow(s, group) == ScopedWindow(t, group)
  {}

  lemma SetWindow(s: LimitState, at: string, w: Option<Window>, group: string)
    ensures ScopedWindow(SetIfPresent(s, at, w), group) == if at == group then Or(w, ScopedWindow(s, group)) else ScopedWindow(s, group)
    ensures SetIfPresent(s, at, w).scopedBans == s.scopedBans
  {}

  lemma RoutedWindow(s: LimitState, u: UnifiedHeaders, group: string)
    ensures ScopedWindow(RouteSevenDay(s, u), group)
         == if u.sevenDay.Some? && u.LegacyGroup() == Some(group)
            then Some(u.sevenDay.value.(status := u.status.GetOr(u.sevenDay.value.status))) else ScopedWindow(s, group)
    ensures RouteSevenDay(s, u).scopedBans == s.scopedBans
  {}

  lemma UsageWindow(s: LimitState, usage: UsageJson, group: string)
    ensures ScopedWindow(ApplyUsageJson(s, usage), group) == WindowAfter(ScopedWindow(s, group), IngestUsage(usage), group)
    ensures ApplyUsageJson(s, usage).scopedBans == s.scopedBans
  {
    hide ScopedFromJson, FromJson, SetScopedWindows, HasGroup, ListedWindow;
    var accounted := s.(fiveHour := Or(FromJson(usage.fiveHour), s.fiveHour),
                        sevenDay := Or(FromJson(usage.sevenDayOpus), Or(FromJson(usage.sevenDay), s.sevenDay)));
    var cleared := if usage.limits.Some? then accounted.(scopedWeekly := map[], sonnetSevenDay := None) else accounted;
    SetWindowsLast(cleared, usage.limits.GetOr([]), group);
  }

  lemma HeadersGroup(s: LimitState, c: ModelClass, r: Response, now: Time, group: string)
    ensures var t, step := ComputeNewState(s, c, r, now).GetOr(s), LimitStep.AbsorbHeaders(c, r, now);
            && ScopedWindow(t, group) == Or(GroupWindowIn(r.unified, group), ScopedWindow(s, group))
            && Get(t.scopedBans, group) == Or(GroupBanIn(step, group), Get(s.scopedBans, group))
  {
    hide ApplyParsed, ApplyCounters, ApplyRejection, RetryUntil, BanUntil, SetScopedBan, GroupWindowIn;
    var parsed := if r.unified.AnyPresent() then ApplyParsed(s, r.unified) else s;
    var counted := ApplyCounters(parsed, r.counters);
    ParsedWindow(s, r.unified, group);
    if !r.unified.AnyPresent() { NoWindowCarried(r.unified, group); }
    CountersCarry(parsed, r.counters, Requests);
    RejectionBans(counted, r, now, group);
    BanSet(s, ScopedGroup(c).GetOr(SONNET), BanUntil(now, r.retryAfter.GetOr(DEFAULT_429_BAN)), group);
  }

  lemma NoWindowCarried(u: UnifiedHeaders, group: string)
    requires !u.AnyPresent()
    ensures GroupWindowIn(u, group) == None && u.ClaimGroup() == None
  {}

  lemma BanSet(s: LimitState, at: string, until: Time, group: string)
    ensures var t := SetScopedBan(s, at, until);
            && Get(t.scopedBans, group) == (if at == group then Some(until) else Get(s.scopedBans, group))
            && ScopedWindow(t, group) == ScopedWindow(s, group)
  {}

  lemma RejectionBans(s: LimitState, r: Response, now: Time, group: string)
    ensures var t := ApplyRejection(s, r, now);
            && Get(t.scopedBans, group)
               == Or(if r.unified.AnyPresent() && r.unified.ClaimGroup() == Some(group)
                     then Or(r.unified.notes.resetAt, RetryUntil(now, r.retryAfter)) else None, Get(s.scopedBans, group))
            && ScopedWindow(t, group) == ScopedWindow(s, group)
  {
    hide RetryUntil;
  }

  /** After any run a group's window and ban depend only on what was carried for that group: the window as replaced
      step by step, the ban as the latest one. No group's headers leak into another's. */
  lemma {:induction false} RunHoldsGroups(steps: seq<LimitStep>, group: string)
    ensures ScopedWindow(Run(steps), group) == WindowAfterAll(steps, group)
    ensures Get(Run(steps).scopedBans, group) == Latest(Map(steps, step => GroupBanIn(step, group)))
  {
    hide ComputeNewState, ApplyUsageJson, WindowAfter, GroupBanIn, FlushReason;
    if steps != [] {
      var front, last := steps[..|steps| - 1], steps[|steps| - 1];
      RunHoldsGroups(front, group);
      LatestOfMore(steps, step => GroupBanIn(step, group));
      StepGroup(Run(front), last, group);
    }
  }

  lemma StepGroup(s: LimitState, step: LimitStep, group: string)
    ensures ScopedWindow(Step(s, step), group) == WindowAfter(ScopedWindow(s, group), step, group)
    ensures Get(Step(s, step).scopedBans, group) == Or(GroupBanIn(step, group), Get(s.scopedBans, group))
  {
    hide ComputeNewState, ApplyUsageJson, FlushReason, GroupWindowIn, FromJson, ListedWindow;
    match step
    case AbsorbHeaders(c, r, now) => HeadersGroup(s, c, r, now, group);
    case IngestUsage(usage) => UsageWindow(s, usage, group);
  }
}
