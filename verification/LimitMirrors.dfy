/** The Sonnet mirror fields of the rate-limit state, and the store that keeps one state per account. */
module LimitMirrors {
  import opened Wrappers
  import opened Decimal
  import opened Pricing
  import opened Limits

  /** The mirrors repeat what the scoped maps say under "sonnet", and every window is stored under its own group,
      a trimmed lower-case name. */
  ghost predicate Mirrored(s: LimitState) {
    && s.sonnetSevenDay == ScopedWindow(s, SONNET)
    && s.sonnetBan == Get(s.scopedBans, SONNET)
    && forall g :: g in s.scopedWeekly ==> s.scopedWeekly[g].modelGroup == g && g != "" && NormalGroup(g) == g
  }

  // ---- group names ----

  /** Normalizing a group name twice is normalizing it once. */
  lemma NormalGroupIsNormal(raw: string)
    ensures NormalGroup(NormalGroup(raw)) == NormalGroup(raw)
  {
    var t := Trim(raw);
    TrimTrims(raw);
    var l := Lower(t);
    if t != "" { assert l[0] == ToLower(t[0]) && l[|l| - 1] == ToLower(t[|t| - 1]); }
    assert Trimmed(l);
    TrimTrims(l);
    assert Lower(l) == l;
  }

  lemma KnownGroupsAreNormal()
    ensures NormalGroup(SONNET) == SONNET && NormalGroup(FABLE) == FABLE
  {
    TrimTrims(SONNET);
    TrimTrims(FABLE);
    assert Lower(SONNET) == SONNET && Lower(FABLE) == FABLE;
  }

  // ---- the invariant ----

  lemma SetWindowMirrors(s: LimitState, item: ScopedLimit)
    requires Mirrored(s) && item.modelGroup != "" && NormalGroup(item.modelGroup) == item.modelGroup
    ensures Mirrored(SetScopedWindow(s, item))
  {
    hide NormalGroup;
  }

  lemma SetBanMirrors(s: LimitState, group: string, until: Time)
    requires Mirrored(s)
    ensures Mirrored(SetScopedBan(s, group, until))
  {
    hide NormalGroup;
  }

  lemma ApplyParsedMirrors(s: LimitState, u: UnifiedHeaders)
    requires Mirrored(s)
    ensures Mirrored(ApplyParsed(s, u))
  {
    hide NormalGroup, Mirrored, SetScopedWindow, MergeNotes;
    KnownGroupsAreNormal();
    var noted := s.(fiveHour := Or(u.fiveHour, s.fiveHour), notes := MergeNotes(s.notes, u.notes));
    OtherFieldsMirror(s, noted);
    if u.sonnet.Some? { SetWindowMirrors(noted, ScopedLimit(SONNET, u.sonnet.value)); }
    var sonnet := SetIfPresent(noted, SONNET, u.sonnet);
    if u.fable.Some? { SetWindowMirrors(sonnet, ScopedLimit(FABLE, u.fable.value)); }
    var explicit := SetIfPresent(sonnet, FABLE, u.fable);
    var routed := RouteSevenDay(explicit, u);
    if u.sevenDay.Some? && u.LegacyGroup().Some? {
      var w := u.sevenDay.value;
      SetWindowMirrors(explicit, ScopedLimit(u.LegacyGroup().value, w.(status := u.status.GetOr(w.status))));
    } else {
      OtherFieldsMirror(explicit, routed);
    }
    OtherFieldsMirror(routed, ApplyParsed(s, u));
  }

  lemma OtherFieldsMirror(s: LimitState, t: LimitState)
    requires Mirrored(s) && t.scopedWeekly == s.scopedWeekly && t.scopedBans == s.scopedBans
    requires t.sonnetSevenDay == s.sonnetSevenDay && t.sonnetBan == s.sonnetBan
    ensures Mirrored(t)
  {}

  lemma RejectionMirrors(s: LimitState, r: Response, now: Time)
    requires Mirrored(s)
    ensures Mirrored(ApplyRejection(s, r, now))
  {
    hide Mirrored, SetScopedBan, RetryUntil;
    var n := ApplyRejection(s, r, now);
    var until := Or(if r.unified.AnyPresent() then r.unified.notes.resetAt else None, RetryUntil(now, r.retryAfter));
    if r.unified.AnyPresent() && r.unified.ClaimGroup().Some? && until.Some? {
      SetBanMirrors(s, r.unified.ClaimGroup().value, until.value);
    } else {
      OtherFieldsMirror(s, n);
    }
  }

  lemma HeadersMirror(prev: LimitState, c: ModelClass, r: Response, now: Time)
    requires Mirrored(prev)
    ensures var n := ComputeNewState(prev, c, r, now); n.Some? ==> Mirrored(n.value)
  {
    hide Mirrored, ApplyParsed, ApplyRejection, MergeRpmTpm, BanUntil, SetScopedBan;
    var until := BanUntil(now, r.retryAfter.GetOr(DEFAULT_429_BAN));
    if HasHeaders(r) {
      ApplyParsedMirrors(prev, r.unified);
      var parsed := if r.unified.AnyPresent() then ApplyParsed(prev, r.unified) else prev;
      var counted := ApplyCounters(parsed, r.counters);
      OtherFieldsMirror(parsed, counted);
      RejectionMirrors(counted, r, now);
    } else if ScopedGroup(c).Some? {
      SetBanMirrors(prev, ScopedGroup(c).value, until);
    } else {
      OtherFieldsMirror(prev, prev.(rateLimitedUntil := Some(until)));
    }
  }

  lemma {:induction false} ScopedFromJsonIsNormal(items: seq<JsonLimit>)
    ensures forall item :: item in ScopedFromJson(items) ==> item.modelGroup != "" && NormalGroup(item.modelGroup) == item.modelGroup
  {
    hide NormalGroup;
    if items != [] {
      ScopedFromJsonIsNormal(items[..|items| - 1]);
      NormalGroupIsNormal(items[|items| - 1].modelGroup);
    }
  }

  lemma {:induction false} SetWindowsMirror(s: LimitState, items: seq<ScopedLimit>)
    requires Mirrored(s)
    requires forall item :: item in items ==> item.modelGroup != "" && NormalGroup(item.modelGroup) == item.modelGroup
    ensures Mirrored(SetScopedWindows(s, items))
  {
    hide NormalGroup, Mirrored, SetScopedWindow;
    if items != [] {
      SetWindowsMirror(s, items[..|items| - 1]);
      SetWindowMirrors(SetScopedWindows(s, items[..|items| - 1]), items[|items| - 1]);
    }
  }

  lemma UsageMirrors(s: LimitState, usage: UsageJson)
    requires Mirrored(s)
    ensures Mirrored(ApplyUsageJson(s, usage))
  {
    hide NormalGroup, ScopedFromJson, SetScopedWindows, FromJson;
    var accounted := s.(fiveHour := Or(FromJson(usage.fiveHour), s.fiveHour),
                        sevenDay := Or(FromJson(usage.sevenDayOpus), Or(FromJson(usage.sevenDay), s.sevenDay)));
    var cleared := if usage.limits.Some? then accounted.(scopedWeekly := map[], sonnetSevenDay := None) else accounted;
    assert Mirrored(cleared);
    var scoped := ScopedFromJson(usage.limits.GetOr([]));
    ScopedFromJsonIsNormal(usage.limits.GetOr([]));
    SetWindowsMirror(cleared, scoped);
    KnownGroupsAreNormal();
    var w := FromJson(usage.sevenDaySonnet);
    if w.Some? { SetWindowMirrors(SetScopedWindows(cleared, scoped), ScopedLimit(SONNET, w.value)); }
  }

  lemma StepMirrors(s: LimitState, step: LimitStep)
    requires Mirrored(s)
    ensures Mirrored(Step(s, step))
  {
    hide ComputeNewState, FlushReason, ApplyUsageJson, NormalGroup;
    match step
    case AbsorbHeaders(c, r, now) => HeadersMirror(s, c, r, now);
    case IngestUsage(usage) => UsageMirrors(s, usage);
  }

  /** Over any run of header and usage absorptions the mirrors never diverge from the scoped maps. */
  lemma {:induction false} RunMirrors(steps: seq<LimitStep>)
    ensures Mirrored(Run(steps))
  {
    hide Step, NormalGroup;
    if steps != [] {
      RunMirrors(steps[..|steps| - 1]);
      StepMirrors(Run(steps[..|steps| - 1]), steps[|steps| - 1]);
    }
  }

  /** The selector as it would be without the mirror fields. */
  function JudgeWithoutMirrors(s: LimitState, c: ModelClass, now: Time): Availability {
    var account := JudgeAccount(s, now);
    if account.Unavailable? || ScopedGroup(c).None? then account
    else JudgeScoped(Get(s.scopedBans, ScopedGroup(c).value), ScopedWindow(s, ScopedGroup(c).value), now)
  }

  /** On every reachable state the fallbacks to the mirrors never change the answer. */
  lemma FallbacksNeverMatter(steps: seq<LimitStep>, c: ModelClass, now: Time)
    ensures Judge(Run(steps), c, now) == JudgeWithoutMirrors(Run(steps), c, now)
  {
    hide Run, NormalGroup, JudgeAccount, JudgeScoped;
    RunMirrors(steps);
  }

  // ---- the store ----

  /** `apply_usage_json` as the sequence of assignments it is. */
  method ApplyUsage(s: LimitState, usage: UsageJson) returns (state: LimitState)
    ensures state == ApplyUsageJson(s, usage)
  {
    hide ScopedFromJson, FromJson, SetScopedWindow;
    state := s;
    var w := FromJson(usage.fiveHour);
    if w.Some? { state := state.(fiveHour := w); }
    w := FromJson(usage.sevenDay);
    if w.Some? { state := state.(sevenDay := w); }
    w := FromJson(usage.sevenDayOpus);
    if w.Some? { state := state.(sevenDay := w); }
    if usage.limits.Some? { state := state.(scopedWeekly := map[], sonnetSevenDay := None); }
    ghost var cleared := state;
    var scoped := ScopedFromJson(usage.limits.GetOr([]));
    for i := 0 to |scoped|
      invariant state == SetScopedWindows(cleared, scoped[..i])
    {
      assert scoped[..i + 1][..i] == scoped[..i];
      state := SetScopedWindow(state, scoped[i]);
    }
    assert scoped[..|scoped|] == scoped;
    if !HasGroup(scoped, SONNET) {
      w := FromJson(usage.sevenDaySonnet);
      if w.Some? { state := SetScopedWindow(state, ScopedLimit(SONNET, w.value)); }
    }
  }

  type AccountId = int

  class LimitStore {
    var states: map<AccountId, LimitState>
    /** Everything each account has absorbed. */
    ghost var history: map<AccountId, seq<LimitStep>>

    ghost predicate Valid()
      reads this
    {
      && states.Keys <= history.Keys
      && forall a :: a in history ==> StateOf(a) == Run(history[a])
    }

    function StateOf(a: AccountId): LimitState
      reads this
    {
      if a in states then states[a] else DEFAULT_STATE
    }

    ghost function HistoryOf(a: AccountId): seq<LimitStep>
      reads this
    {
      if a in history then history[a] else []
    }

    constructor ()
      ensures Valid() && states == map[] && history == map[]
    {
      states, history := map[], map[];
    }

    /** True: the caller is to write the state back. */
    method AbsorbHeaders(account: AccountId, c: ModelClass, response: Response, now: Time) returns (shouldFlush: bool)
      requires Valid()
      modifies this
      ensures Valid()
      ensures (StateOf(account), shouldFlush) == Absorb(old(StateOf(account)), c, response, now)
      ensures history == old(history)[account := old(HistoryOf(account)) + [LimitStep.AbsorbHeaders(c, response, now)]]
      ensures forall a :: a != account ==> StateOf(a) == old(StateOf(a))
    {
      hide ComputeNewState, FlushReason, Run;
      var prev := StateOf(account);
      ghost var steps := HistoryOf(account);
      OneMoreStep(steps, LimitStep.AbsorbHeaders(c, response, now));
      history := history[account := steps + [LimitStep.AbsorbHeaders(c, response, now)]];
      var computed := ComputeNewState(prev, c, response, now);
      if computed.None? { return false; }
      var next := computed.value;
      var reason := FlushReason(prev, next, now);
      if reason.Some? { next := next.(lastFlushAt := Some(now)); }
      states := states[account := next];
      return reason.Some?;
    }

    method IngestUsageJson(account: AccountId, usage: UsageJson)
      requires Valid()
      modifies this
      ensures Valid()
      ensures StateOf(account) == ApplyUsageJson(old(StateOf(account)), usage)
      ensures history == old(history)[account := old(HistoryOf(account)) + [IngestUsage(usage)]]
      ensures forall a :: a != account ==> StateOf(a) == old(StateOf(a))
    {
      hide Run, ApplyUsageJson;
      ghost var steps := HistoryOf(account);
      OneMoreStep(steps, IngestUsage(usage));
      var state := ApplyUsage(StateOf(account), usage);
      states := states[account := state];
      history := history[account := steps + [IngestUsage(usage)]];
    }

    /** An account nothing is known of is available. */
    method QueryAvailability(account: AccountId, c: ModelClass, now: Time) returns (answer: Availability)
      requires Valid()
      ensures answer == JudgeWithoutMirrors(Run(HistoryOf(account)), c, now)
    {
      if account in states {
        FallbacksNeverMatter(history[account], c, now);
        return Judge(states[account], c, now);
      }
      return Available;
    }
  }

  lemma OneMoreStep(steps: seq<LimitStep>, step: LimitStep)
    ensures Run(steps + [step]) == Step(Run(steps), step) && Run([]) == DEFAULT_STATE
  {
    hide Step;
    assert (steps + [step])[..|steps|] == steps;
  }
}
