/** Rate-limit state of an account (src/service/limit.rs): what response headers and usage reports make of it,
    and what the selector reads from it. Clock readings are parameters, utilization is a real between 0 and 1. */
module Limits {
  import opened Wrappers
  import opened Decimal
  import opened Pricing

  type Time = int

  const SECOND: int := 1_000_000_000
  const DB_FLUSH_TTL: int := 300 * SECOND
  const HIT_THRESHOLD: real := 0.97
  const DEFAULT_429_BAN: nat := 60
  const PREEMPT_RATIO: real := 0.03
  const MAX_DURATION_SECONDS: nat := 9_223_372_036_854_775

  const SONNET := "sonnet"
  const FABLE := "fable"

  datatype ModelClass = OpusClass | SonnetClass | FableClass

  function ScopedGroup(c: ModelClass): Option<string> {
    match c case SonnetClass => Some(SONNET) case FableClass => Some(FABLE) case OpusClass => None
  }

  datatype Status = Allowed | AllowedWarning | Rejected

  datatype Window = Window(utilization: real, resetsAt: Time, status: Status, surpassedThreshold: Option<real>) {
    predicate Hit(now: Time) { utilization >= HIT_THRESHOLD && resetsAt > now }
  }

  datatype ScopedLimit = ScopedLimit(modelGroup: string, window: Window)

  datatype Counter = Counter(limit: int, remaining: int, resetAt: Time) {
    predicate Preempted(now: Time) {
      limit > 0 && remaining as real / limit as real < PREEMPT_RATIO && resetAt > now
    }
  }

  datatype RpmTpm = RpmTpm(requests: Option<Counter>, tokens: Option<Counter>, inputTokens: Option<Counter>, outputTokens: Option<Counter>) {
    function All(): seq<Option<Counter>> { [requests, tokens, inputTokens, outputTokens] }
    predicate Any() { requests.Some? || tokens.Some? || inputTokens.Some? || outputTokens.Some? }
  }

  const NO_COUNTERS := RpmTpm(None, None, None, None)

  /** Fields kept for display only, and `resetAt`, the time reported with a rejected account. */
  datatype Notes = Notes(representativeClaim: Option<string>, resetAt: Option<Time>, fallbackPercentage: Option<real>,
                         overageStatus: Option<Status>, overageDisabledReason: Option<string>, overageResetAt: Option<Time>)

  const NO_NOTES := Notes(None, None, None, None, None, None)

  datatype LimitState = LimitState(
    fiveHour: Option<Window>, sevenDay: Option<Window>, status: Option<Status>, rateLimitedUntil: Option<Time>,
    rpmTpm: Option<RpmTpm>, scopedWeekly: map<string, ScopedLimit>, scopedBans: map<string, Time>,
    sonnetSevenDay: Option<Window>, sonnetBan: Option<Time>, notes: Notes, lastFlushAt: Option<Time>)

  const DEFAULT_STATE := LimitState(None, None, None, None, None, map[], map[], None, None, NO_NOTES, None)

  // ---- what a response carries ----

  /** The `anthropic-ratelimit-unified-*` headers that parsed, explicit model windows included. */
  datatype UnifiedHeaders = UnifiedHeaders(
    fiveHour: Option<Window>, sevenDay: Option<Window>, sonnet: Option<Window>, fable: Option<Window>,
    status: Option<Status>, notes: Notes)
  {
    /** A fallback percentage or a disabled-reason alone does not make the headers present. */
    predicate AnyPresent() {
      || fiveHour.Some? || sevenDay.Some? || sonnet.Some? || fable.Some? || status.Some?
      || notes.representativeClaim.Some? || notes.resetAt.Some? || notes.overageStatus.Some? || notes.overageResetAt.Some?
    }

    predicate ExplicitGroup(group: string) { (group == SONNET && sonnet.Some?) || (group == FABLE && fable.Some?) }

    function ClaimGroup(): Option<string> { ScopedClaimGroup(notes.representativeClaim) }

    /** The model group an unqualified 7d window is routed to: that of the claim, unless it has a window of its own. */
    function LegacyGroup(): Option<string> {
      if ClaimGroup().Some? && !ExplicitGroup(ClaimGroup().value) then ClaimGroup() else None
    }
  }

  const NO_HEADERS := UnifiedHeaders(None, None, None, None, None, NO_NOTES)

  datatype Response = Response(httpStatus: nat, unified: UnifiedHeaders, counters: RpmTpm, retryAfter: Option<nat>)

  predicate WholeSecond(t: Option<Time>) { t.Some? ==> t.value % SECOND == 0 }
  predicate ResetsOnSecond(w: Option<Window>) { w.Some? ==> w.value.resetsAt % SECOND == 0 }

  /** What headers can say: the unified ones give times as whole Unix seconds. */
  predicate Sendable(r: Response) {
    && ResetsOnSecond(r.unified.fiveHour) && ResetsOnSecond(r.unified.sevenDay)
    && ResetsOnSecond(r.unified.sonnet) && ResetsOnSecond(r.unified.fable)
    && WholeSecond(r.unified.notes.resetAt) && WholeSecond(r.unified.notes.overageResetAt)
  }

  function NextSecond(now: Time): (t: Time)
    ensures now < t <= now + SECOND && t % SECOND == 0
  {
    (now / SECOND + 1) * SECOND
  }

  function ScopedClaimGroup(claim: Option<string>): Option<string> {
    if claim == Some("seven_day_sonnet") then Some(SONNET)
    else if claim == Some("seven_day_overage_included") then Some(FABLE)
    else None
  }

  // ---- absorbing headers ----

  function SetScopedWindow(s: LimitState, item: ScopedLimit): LimitState {
    s.(scopedWeekly := s.scopedWeekly[item.modelGroup := item],
       sonnetSevenDay := if item.modelGroup == SONNET then Some(item.window) else s.sonnetSevenDay)
  }

  function SetScopedBan(s: LimitState, group: string, until: Time): LimitState {
    s.(scopedBans := s.scopedBans[group := until], sonnetBan := if group == SONNET then Some(until) else s.sonnetBan)
  }

  function SetIfPresent(s: LimitState, group: string, w: Option<Window>): LimitState {
    if w.Some? then SetScopedWindow(s, ScopedLimit(group, w.value)) else s
  }

  function MergeNotes(prev: Notes, next: Notes): Notes {
    Notes(Or(next.representativeClaim, prev.representativeClaim), Or(next.resetAt, prev.resetAt),
          Or(next.fallbackPercentage, prev.fallbackPercentage), Or(next.overageStatus, prev.overageStatus),
          Or(next.overageDisabledReason, prev.overageDisabledReason), Or(next.overageResetAt, prev.overageResetAt))
  }

  /** The unqualified 7d window: the account's, or that of the model group the claim names. */
  function RouteSevenDay(s: LimitState, u: UnifiedHeaders): LimitState {
    if u.sevenDay.None? then s
    else
      var w := u.sevenDay.value;
      if u.LegacyGroup().Some?
      then SetScopedWindow(s, ScopedLimit(u.LegacyGroup().value, w.(status := u.status.GetOr(w.status))))
      else s.(sevenDay := Some(w))
  }

  function ApplyParsed(s: LimitState, u: UnifiedHeaders): LimitState {
    var noted := s.(fiveHour := Or(u.fiveHour, s.fiveHour), notes := MergeNotes(s.notes, u.notes));
    var explicit := SetIfPresent(SetIfPresent(noted, SONNET, u.sonnet), FABLE, u.fable);
    var routed := RouteSevenDay(explicit, u);
    if u.ClaimGroup().None? then routed.(status := Or(u.status, s.status)) else routed
  }

  function MergeRpmTpm(prev: Option<RpmTpm>, n: RpmTpm): RpmTpm {
    var kept := prev.GetOr(NO_COUNTERS);
    RpmTpm(Or(n.requests, kept.requests), Or(n.tokens, kept.tokens), Or(n.inputTokens, kept.inputTokens), Or(n.outputTokens, kept.outputTokens))
  }

  function ApplyCounters(s: LimitState, c: RpmTpm): LimitState {
    if c.Any() then s.(rpmTpm := Some(MergeRpmTpm(s.rpmTpm, c))) else s
  }

  /** A delay too long for the clock's duration type counts as none. */
  function BanUntil(now: Time, seconds: nat): Time { now + if seconds <= MAX_DURATION_SECONDS then seconds * SECOND else 0 }

  function RetryUntil(now: Time, retryAfter: Option<nat>): Option<Time> {
    if retryAfter.Some? then Some(BanUntil(now, retryAfter.value)) else None
  }

  /** A 429 that came with headers isolates the claimed model group, or the account when nothing else dates its reset. */
  function ApplyRejection(s: LimitState, r: Response, now: Time): LimitState {
    var resetAt := if r.unified.AnyPresent() then r.unified.notes.resetAt else None;
    var group := if r.unified.AnyPresent() then r.unified.ClaimGroup() else None;
    var retry := RetryUntil(now, r.retryAfter);
    if group.Some? then (if Or(resetAt, retry).Some? then SetScopedBan(s, group.value, Or(resetAt, retry).value) else s)
    else if resetAt.None? && retry.Some? then s.(rateLimitedUntil := retry)
    else s
  }

  predicate HasHeaders(r: Response) { r.unified.AnyPresent() || r.counters.Any() }

  /** None: the response says nothing, the state stays as it is. */
  function ComputeNewState(prev: LimitState, c: ModelClass, r: Response, now: Time): Option<LimitState> {
    if HasHeaders(r) then
      var s := ApplyCounters(if r.unified.AnyPresent() then ApplyParsed(prev, r.unified) else prev, r.counters);
      Some(if r.httpStatus == 429 then ApplyRejection(s, r, now) else s)
    else if r.httpStatus == 429 then
      var until := BanUntil(now, r.retryAfter.GetOr(DEFAULT_429_BAN));
      Some(if ScopedGroup(c).Some? then SetScopedBan(prev, ScopedGroup(c).value, until) else prev.(rateLimitedUntil := Some(until)))
    else None
  }

  // ---- absorbing usage reports ----

  /** Utilization in percent. */
  datatype JsonWindow = JsonWindow(utilization: real, resetsAt: Time)

  /** An entry of `limits` of type weekly_scoped with every field the parser asks for. */
  datatype JsonLimit = JsonLimit(modelGroup: string, utilization: real, resetsAt: Time)

  /** `limits`: None when the field is missing, Some([]) when it is null or not an array. */
  datatype UsageJson = UsageJson(fiveHour: Option<JsonWindow>, sevenDay: Option<JsonWindow>, sevenDayOpus: Option<JsonWindow>,
                                 sevenDaySonnet: Option<JsonWindow>, limits: Option<seq<JsonLimit>>)

  function FromJson(w: Option<JsonWindow>): Option<Window> {
    if w.Some? then Some(Window(w.value.utilization / 100.0, w.value.resetsAt, Allowed, None)) else None
  }

  function NormalGroup(raw: string): string { Lower(Trim(raw)) }

  function ScopedFromJson(items: seq<JsonLimit>): seq<ScopedLimit> {
    if items == [] then []
    else
      var earlier, item := ScopedFromJson(items[..|items| - 1]), items[|items| - 1];
      if NormalGroup(item.modelGroup) == "" || item.utilization < 0.0 then earlier
      else earlier + [ScopedLimit(NormalGroup(item.modelGroup), Window(item.utilization / 100.0, item.resetsAt, Allowed, None))]
  }

  function SetScopedWindows(s: LimitState, items: seq<ScopedLimit>): LimitState {
    if items == [] then s else SetScopedWindow(SetScopedWindows(s, items[..|items| - 1]), items[|items| - 1])
  }

  predicate HasGroup(items: seq<ScopedLimit>, group: string) { exists k :: 0 <= k < |items| && items[k].modelGroup == group }

  function ApplyUsageJson(s: LimitState, usage: UsageJson): LimitState {
    var accounted := s.(fiveHour := Or(FromJson(usage.fiveHour), s.fiveHour),
                        sevenDay := Or(FromJson(usage.sevenDayOpus), Or(FromJson(usage.sevenDay), s.sevenDay)));
    var cleared := if usage.limits.Some? then accounted.(scopedWeekly := map[], sonnetSevenDay := None) else accounted;
    var scoped := ScopedFromJson(usage.limits.GetOr([]));
    var filled := SetScopedWindows(cleared, scoped);
    if HasGroup(scoped, SONNET) then filled else SetIfPresent(filled, SONNET, FromJson(usage.sevenDaySonnet))
  }

  // ---- when to write the state back ----

  datatype Reason = FirstFill | TtlExpired | StatusChanged | WindowAdded | ScopedStatusChanged | ThresholdCrossed
    | SurpassedThreshold | ShortBan | ScopedShortBan | CountersPreempted

  function UtilizationOf(w: Option<Window>): real { if w.Some? then w.value.utilization else 0.0 }
  predicate Surpassed(w: Option<Window>) { w.Some? && w.value.surpassedThreshold.Some? }

  predicate CrossedThreshold(prev: Option<Window>, n: Option<Window>) {
    UtilizationOf(n) >= HIT_THRESHOLD && UtilizationOf(prev) < HIT_THRESHOLD
  }

  predicate NewlySurpassed(prev: Option<Window>, n: Option<Window>) { Surpassed(n) && !Surpassed(prev) }

  function ScopedWindow(s: LimitState, group: string): Option<Window> {
    if group in s.scopedWeekly then Some(s.scopedWeekly[group].window) else None
  }

  function StatusOf(w: Option<Window>): Status { if w.Some? then w.value.status else Allowed }

  predicate WindowAddedTo(prev: LimitState, n: LimitState) { exists g :: g in n.scopedWeekly && g !in prev.scopedWeekly }

  predicate ScopedTightened(prev: LimitState, n: LimitState) {
    exists g :: g in n.scopedWeekly && StatusOf(ScopedWindow(prev, g)) == Allowed && n.scopedWeekly[g].window.status != Allowed
  }

  predicate ScopedCrossed(prev: LimitState, n: LimitState) {
    exists g :: g in n.scopedWeekly && CrossedThreshold(ScopedWindow(prev, g), ScopedWindow(n, g))
  }

  predicate ScopedSurpassed(prev: LimitState, n: LimitState) {
    exists g :: g in n.scopedWeekly && NewlySurpassed(ScopedWindow(prev, g), ScopedWindow(n, g))
  }

  predicate ScopedBanExtended(prev: LimitState, n: LimitState) {
    exists g :: g in n.scopedBans && (g in prev.scopedBans ==> n.scopedBans[g] > prev.scopedBans[g])
  }

  /** The first preempted counter in the order requests, tokens, input tokens, output tokens. */
  function FirstPreempted(counters: seq<Option<Counter>>, now: Time): Option<Time> {
    if counters == [] then None
    else if counters[0].Some? && counters[0].value.Preempted(now) then Some(counters[0].value.resetAt)
    else FirstPreempted(counters[1..], now)
  }

  function PreemptedUntil(rt: Option<RpmTpm>, now: Time): Option<Time> {
    if rt.Some? then FirstPreempted(rt.value.All(), now) else None
  }

  function FlushReason(prev: LimitState, n: LimitState, now: Time): Option<Reason> {
    if prev.lastFlushAt.None? then Some(FirstFill)
    else if now - prev.lastFlushAt.value >= DB_FLUSH_TTL then Some(TtlExpired)
    else if prev.status.GetOr(Allowed) == Allowed && n.status.GetOr(Allowed) != Allowed then Some(StatusChanged)
    else if WindowAddedTo(prev, n) then Some(WindowAdded)
    else if ScopedTightened(prev, n) then Some(ScopedStatusChanged)
    else if CrossedThreshold(prev.fiveHour, n.fiveHour) || CrossedThreshold(prev.sevenDay, n.sevenDay) || ScopedCrossed(prev, n)
    then Some(ThresholdCrossed)
    else if NewlySurpassed(prev.fiveHour, n.fiveHour) || NewlySurpassed(prev.sevenDay, n.sevenDay) || ScopedSurpassed(prev, n)
    then Some(SurpassedThreshold)
    else if prev.rateLimitedUntil.None? && n.rateLimitedUntil.Some? then Some(ShortBan)
    else if ScopedBanExtended(prev, n) then Some(ScopedShortBan)
    else if PreemptedUntil(n.rpmTpm, now).Some? && PreemptedUntil(prev.rpmTpm, now).None? then Some(CountersPreempted)
    else None
  }

  // ---- what the selector reads ----

  datatype Gate = RejectedStatus | Banned | CountersLow | FiveHourHit | SevenDayHit | ScopedBanned | ScopedWindowHit
  datatype Availability = Available | Unavailable(gate: Gate, until: Option<Time>)

  function JudgeAccount(s: LimitState, now: Time): Availability {
    if s.status == Some(Rejected) then Unavailable(RejectedStatus, s.notes.resetAt)
    else if s.rateLimitedUntil.Some? && s.rateLimitedUntil.value > now then Unavailable(Banned, s.rateLimitedUntil)
    else if PreemptedUntil(s.rpmTpm, now).Some? then Unavailable(CountersLow, PreemptedUntil(s.rpmTpm, now))
    else if s.fiveHour.Some? && s.fiveHour.value.Hit(now) then Unavailable(FiveHourHit, Some(s.fiveHour.value.resetsAt))
    else if s.sevenDay.Some? && s.sevenDay.value.Hit(now) then Unavailable(SevenDayHit, Some(s.sevenDay.value.resetsAt))
    else Available
  }

  function JudgeScoped(ban: Option<Time>, window: Option<Window>, now: Time): Availability {
    if ban.Some? && ban.value > now then Unavailable(ScopedBanned, ban)
    else if window.Some? && (window.value.status == Rejected || window.value.Hit(now))
    then Unavailable(ScopedWindowHit, Some(window.value.resetsAt))
    else Available
  }

  /** With the fallbacks to the Sonnet mirrors the code still has. */
  function Judge(s: LimitState, c: ModelClass, now: Time): Availability {
    var account := JudgeAccount(s, now);
    if account.Unavailable? || ScopedGroup(c).None? then account
    else
      var group := ScopedGroup(c).value;
      JudgeScoped(Or(Get(s.scopedBans, group), if group == SONNET then s.sonnetBan else None),
                  Or(ScopedWindow(s, group), if group == SONNET then s.sonnetSevenDay else None), now)
  }

  predicate IsAvailable(s: LimitState, c: ModelClass, now: Time) { Judge(s, c, now).Available? }

  // ---- the column the database keeps ----

  function Later(a: Option<Time>, b: Time): Option<Time> { if a.Some? && a.value >= b then a else Some(b) }

  function PickWindow(picked: Option<Time>, w: Option<Window>, now: Time): Option<Time> {
    if w.Some? && w.value.Hit(now) then Later(picked, w.value.resetsAt) else picked
  }

  function PickCounters(picked: Option<Time>, counters: seq<Option<Counter>>, now: Time): Option<Time>
    decreases |counters|
  {
    if counters == [] then picked
    else
      var c := counters[0];
      PickCounters(if c.Some? && c.value.Preempted(now) then Later(picked, c.value.resetAt) else picked, counters[1..], now)
  }

  /** `bottleneck_limit_until`: the latest reset among full windows and preempted counters. */
  function Bottleneck(s: LimitState, now: Time): Option<Time> {
    var windows := PickWindow(PickWindow(None, s.fiveHour, now), s.sevenDay, now);
    if s.rpmTpm.Some? then PickCounters(windows, s.rpmTpm.value.All(), now) else windows
  }

  /** What `flush_to_db` writes as the account's limit. */
  function DbLimitUntil(s: LimitState, now: Time): Option<Time> { Or(Bottleneck(s, now), s.rateLimitedUntil) }

  // ---- runs ----

  datatype LimitStep = AbsorbHeaders(modelClass: ModelClass, response: Response, now: Time) | IngestUsage(usage: UsageJson)

  function Absorb(prev: LimitState, c: ModelClass, r: Response, now: Time): (LimitState, bool) {
    var computed := ComputeNewState(prev, c, r, now);
    if computed.None? then (prev, false)
    else if FlushReason(prev, computed.value, now).Some? then (computed.value.(lastFlushAt := Some(now)), true)
    else (computed.value, false)
  }

  function Step(s: LimitState, step: LimitStep): LimitState {
    match step
    case AbsorbHeaders(c, r, now) => Absorb(s, c, r, now).0
    case IngestUsage(usage) => ApplyUsageJson(s, usage)
  }

  function RunFrom(s: LimitState, steps: seq<LimitStep>): LimitState {
    if steps == [] then s else Step(RunFrom(s, steps[..|steps| - 1]), steps[|steps| - 1])
  }

  function Run(steps: seq<LimitStep>): LimitState { RunFrom(DEFAULT_STATE, steps) }
}
