/** The usage JSON written for the front end (src/service/limit.rs), which has the form of an upstream usage report.
    The gateway itself does not read it back; what is shown is what it says to someone who does. */
module LimitUsageJson {
  import opened Wrappers
  import opened Decimal
  import opened Pricing
  import opened Limits
  import opened LimitMirrors
  import opened LimitHistory

  function WindowToJson(w: Option<Window>): Option<JsonWindow> {
    if w.Some? then Some(JsonWindow(w.value.utilization * 100.0, w.value.resetsAt)) else None
  }

  ghost predicate Lists(order: seq<string>, s: LimitState) {
    && (forall g :: g in order <==> g in s.scopedWeekly)
    && forall i, j :: 0 <= i < j < |order| ==> order[i] != order[j]
  }

  function LimitsToJson(s: LimitState, order: seq<string>): seq<JsonLimit>
    requires forall g :: g in order ==> g in s.scopedWeekly
  {
    seq(|order|, i requires 0 <= i < |order| =>
      var item := s.scopedWeekly[order[i]]; JsonLimit(item.modelGroup, item.window.utilization * 100.0, item.window.resetsAt))
  }

  /** The fields of `build_usage_json` that a usage report has too; `order` is the order the groups are written in. */
  function BuildUsageJson(s: LimitState, order: seq<string>): UsageJson
    requires forall g :: g in order ==> g in s.scopedWeekly
  {
    UsageJson(WindowToJson(s.fiveHour), WindowToJson(s.sevenDay), WindowToJson(s.sevenDay), WindowToJson(s.sonnetSevenDay),
              if s.scopedWeekly == map[] then None else Some(LimitsToJson(s, order)))
  }

  /** What a report keeps of a window. */
  function Plain(w: Window): Window { Window(w.utilization, w.resetsAt, Allowed, None) }
  function PlainIfAny(w: Option<Window>): Option<Window> { if w.Some? then Some(Plain(w.value)) else None }

  /** The reader refuses negative utilization in `limits`, not in the fixed Sonnet field. */
  predicate ReadBack(s: LimitState, g: string) {
    g in s.scopedWeekly && (s.scopedWeekly[g].window.utilization >= 0.0 || g == SONNET)
  }

  ghost function PlainScoped(s: LimitState): map<string, ScopedLimit> {
    map g | g in s.scopedWeekly && ReadBack(s, g) :: ScopedLimit(g, Plain(s.scopedWeekly[g].window))
  }

  ghost function Listed(s: LimitState, order: seq<string>): map<string, ScopedLimit> {
    map g | g in s.scopedWeekly && g in order && s.scopedWeekly[g].window.utilization >= 0.0
      :: ScopedLimit(g, Plain(s.scopedWeekly[g].window))
  }

  lemma PercentAndBack(u: real)
    ensures u * 100.0 / 100.0 == u && (u * 100.0 < 0.0 <==> u < 0.0)
  {}

  lemma WindowRoundTrips(w: Option<Window>)
    ensures FromJson(WindowToJson(w)) == PlainIfAny(w)
  {
    if w.Some? { PercentAndBack(w.value.utilization); }
  }

  /** Reading the written groups one after the other sets exactly those with a usable utilization. */
  lemma {:induction false} GroupsRoundTrip(s: LimitState, start: LimitState, order: seq<string>)
    requires Mirrored(s) && start.scopedWeekly == map[] && start.sonnetSevenDay == None
    requires forall g :: g in order ==> g in s.scopedWeekly
    requires forall i, j :: 0 <= i < j < |order| ==> order[i] != order[j]
    ensures var items := ScopedFromJson(LimitsToJson(s, order));
            && SetScopedWindows(start, items)
               == start.(scopedWeekly := Listed(s, order),
                         sonnetSevenDay := if SONNET in Listed(s, order) then Some(Listed(s, order)[SONNET].window) else None)
            && (HasGroup(items, SONNET) <==> SONNET in Listed(s, order))
  {
    hide Mirrored, LimitsToJson, ScopedFromJson, SetScopedWindows, HasGroup, Listed;
    if order == [] {
      NothingRead(s, start);
    } else {
      var front, g := order[..|order| - 1], order[|order| - 1];
      assert order == front + [g];
      GroupsRoundTrip(s, start, front);
      ReadOneMore(s, front, g);
      ListOneMore(s, front, g);
      SetOneMoreWindow(start, ScopedFromJson(LimitsToJson(s, front)), ScopedLimit(g, Plain(s.scopedWeekly[g].window)));
    }
  }

  lemma NothingRead(s: LimitState, start: LimitState)
    ensures ScopedFromJson(LimitsToJson(s, [])) == [] && ScopedFromJson([]) == [] && SetScopedWindows(start, []) == start
    ensures Listed(s, []) == map[] && !HasGroup([], SONNET)
  {}

  lemma ReadOneMore(s: LimitState, front: seq<string>, g: string)
    requires Mirrored(s) && g in s.scopedWeekly && forall h :: h in front ==> h in s.scopedWeekly
    ensures var w := s.scopedWeekly[g].window; var items := ScopedFromJson(LimitsToJson(s, front));
            ScopedFromJson(LimitsToJson(s, front + [g])) == if w.utilization < 0.0 then items else items + [ScopedLimit(g, Plain(w))]
  {
    hide NormalGroup;
    var item := s.scopedWeekly[g];
    PercentAndBack(item.window.utilization);
    var json := LimitsToJson(s, front + [g]);
    assert json[..|front|] == LimitsToJson(s, front);
  }

  lemma ListOneMore(s: LimitState, front: seq<string>, g: string)
    requires g in s.scopedWeekly && g !in front
    ensures Listed(s, front + [g]) == if s.scopedWeekly[g].window.utilization < 0.0 then Listed(s, front)
                                      else Listed(s, front)[g := ScopedLimit(g, Plain(s.scopedWeekly[g].window))]
  {}

  /** Written and read back into an empty state, a state keeps all its windows, stripped of status and threshold;
      only a window of negative utilization outside Sonnet is refused. */
  lemma UsageJsonRoundTrip(s: LimitState, order: seq<string>)
    requires Mirrored(s) && Lists(order, s)
    ensures ApplyUsageJson(DEFAULT_STATE, BuildUsageJson(s, order))
         == DEFAULT_STATE.(fiveHour := PlainIfAny(s.fiveHour), sevenDay := PlainIfAny(s.sevenDay),
                           scopedWeekly := PlainScoped(s), sonnetSevenDay := PlainIfAny(s.sonnetSevenDay))
  {
    hide Mirrored, LimitsToJson, ScopedFromJson, SetScopedWindows, HasGroup, Listed, FromJson, WindowToJson, PlainIfAny;
    WindowRoundTrips(s.fiveHour);
    WindowRoundTrips(s.sevenDay);
    WindowRoundTrips(s.sonnetSevenDay);
    var start := DEFAULT_STATE.(fiveHour := PlainIfAny(s.fiveHour), sevenDay := PlainIfAny(s.sevenDay));
    SonnetFallback(s, order);
    NothingRead(s, start);
    NoWindow();
    if s.scopedWeekly != map[] { GroupsRoundTrip(s, start, order); }
  }

  lemma NoWindow()
    ensures PlainIfAny(None) == None
  {}

  /** The fixed Sonnet field brings back the one window the list may refuse. */
  lemma SonnetFallback(s: LimitState, order: seq<string>)
    requires Mirrored(s) && Lists(order, s)
    ensures var w := PlainIfAny(s.sonnetSevenDay);
            && (SONNET in Listed(s, order) ==> PlainScoped(s) == Listed(s, order) && w == Some(Listed(s, order)[SONNET].window))
            && (SONNET !in Listed(s, order)
                ==> PlainScoped(s) == if w.Some? then Listed(s, order)[SONNET := ScopedLimit(SONNET, w.value)] else Listed(s, order))
            && (s.scopedWeekly == map[] ==> PlainScoped(s) == map[] && w == None)
  {
    hide NormalGroup;
  }

  predicate WindowHit(w: Option<Window>, now: Time) { w.Some? && w.value.Hit(now) }

  /** What a reader of the JSON can conclude: exactly the windows full at the time. A rejected status or window, bans
      and counters do not follow from these fields. */
  lemma ReadBackAvailability(s: LimitState, order: seq<string>, c: ModelClass, now: Time)
    requires Mirrored(s) && Lists(order, s)
    ensures IsAvailable(ApplyUsageJson(DEFAULT_STATE, BuildUsageJson(s, order)), c, now)
            <==> && !WindowHit(s.fiveHour, now) && !WindowHit(s.sevenDay, now)
                 && (ScopedGroup(c).Some? ==> !WindowHit(ScopedWindow(s, ScopedGroup(c).value), now))
  {
    hide ApplyUsageJson, BuildUsageJson, NormalGroup;
    UsageJsonRoundTrip(s, order);
  }

  /** What the front end can rely on, whatever was absorbed: each group is listed once, and the fixed Sonnet field
      says the same as the Sonnet entry of the list, or both are missing. */
  lemma FrontEndSeesOneSonnet(steps: seq<LimitStep>, order: seq<string>)
    requires Lists(order, Run(steps))
    ensures var json := BuildUsageJson(Run(steps), order); var listed := json.limits.GetOr([]);
            && (forall i, j :: 0 <= i < j < |listed| ==> listed[i].modelGroup != listed[j].modelGroup)
            && (forall i :: 0 <= i < |listed| && listed[i].modelGroup == SONNET
                  ==> json.sevenDaySonnet == Some(JsonWindow(listed[i].utilization, listed[i].resetsAt)))
            && (json.sevenDaySonnet.Some? ==> exists i :: 0 <= i < |listed| && listed[i].modelGroup == SONNET)
  {
    hide Run, Mirrored;
    RunMirrors(steps);
    ListedSonnet(Run(steps), order);
  }

  lemma ListedSonnet(s: LimitState, order: seq<string>)
    requires Mirrored(s) && Lists(order, s)
    ensures var json := BuildUsageJson(s, order); var listed := json.limits.GetOr([]);
            && (forall i, j :: 0 <= i < j < |listed| ==> listed[i].modelGroup != listed[j].modelGroup)
            && (forall i :: 0 <= i < |listed| && listed[i].modelGroup == SONNET
                  ==> json.sevenDaySonnet == Some(JsonWindow(listed[i].utilization, listed[i].resetsAt)))
            && (json.sevenDaySonnet.Some? ==> exists i :: 0 <= i < |listed| && listed[i].modelGroup == SONNET)
  {
    hide NormalGroup;
    if s.scopedWeekly != map[] {
      var listed := LimitsToJson(s, order);
      assert forall i :: 0 <= i < |order| ==> listed[i].modelGroup == order[i];
      if SONNET in order {
        var k :| 0 <= k < |order| && order[k] == SONNET;
        assert listed[k].modelGroup == SONNET;
      }
    }
  }
}
