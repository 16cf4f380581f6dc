/** Rule lookup and cost arithmetic (src/service/usage_pricing.rs). */
module Pricing {
  import opened Wrappers
  import opened Numeric
  import opened UsageModel
  import opened Decimal

  const MILLION: int := 1_000_000

  /** Rates in nano-USD per million tokens. */
  datatype Rates = Rates(input: Option<i64>, output: Option<i64>, cacheCreation5m: Option<i64>,
                         cacheCreation1h: Option<i64>, cacheRead: Option<i64>)

  const NO_RATES := Rates(None, None, None, None, None)

  datatype LongContext = LongContext(threshold: i64, rates: Rates)
  datatype PricingRule = PricingRule(modelKey: string, rates: Rates, longContext: Option<LongContext>)

  /** `ruleOrder` is the order in which the rule map is iterated. */
  datatype PricingEngine = PricingEngine(rules: map<string, PricingRule>, ruleOrder: seq<string>,
                                         overrides: map<string, PricingRule>, version: string)
  {
    ghost predicate Valid() {
      && (forall k :: k in ruleOrder <==> k in rules)
      && (forall i, j :: 0 <= i < j < |ruleOrder| ==> ruleOrder[i] != ruleOrder[j])
    }
  }

  datatype PricedUsage = PricedUsage(costs: UsageCosts, pricingVersion: string, modelKey: Option<string>)

  // ---- rule lookup ----

  function ToLower(c: char): char { if 'A' <= c <= 'Z' then c + 32 as char else c }
  function Lower(s: string): string { seq(|s|, i requires 0 <= i < |s| => ToLower(s[i])) }
  function DotsToDashes(s: string): string { seq(|s|, i requires 0 <= i < |s| => if s[i] == '.' then '-' else s[i]) }

  /** A dash and exactly eight digits: the dated suffix of a model id. */
  predicate IsDateSuffix(s: string) { |s| == 9 && s[0] == '-' && AllDigits(s[1..]) }

  predicate ModelKeyMatches(model: string, key: string) {
    model == key || (key <= model && IsDateSuffix(model[|key|..]))
  }

  function Get<V>(m: map<string, V>, key: string): Option<V> { if key in m then Some(m[key]) else None }

  /** The scan: among the matching keys, in iteration order, the last one of maximal length. */
  function LongestMatch(model: string, keys: seq<string>): Option<string> {
    if keys == [] then None
    else
      var earlier, key := LongestMatch(model, keys[..|keys| - 1]), keys[|keys| - 1];
      if !ModelKeyMatches(model, key) then earlier
      else if earlier.Some? && |earlier.value| > |key| then earlier
      else Some(key)
  }

  function FindRule(engine: PricingEngine, model: string): Option<PricingRule>
    requires engine.Valid()
  {
    var exact := Lower(Trim(model));
    var normalized := DotsToDashes(exact);
    var scanned := LongestMatch(normalized, engine.ruleOrder);
    LongestMatchIsAKey(normalized, engine.ruleOrder);
    Or(Get(engine.overrides, exact),
       Or(Get(engine.rules, normalized), if scanned.Some? then Some(engine.rules[scanned.value]) else None))
  }

  lemma {:induction false} LongestMatchIsAKey(model: string, keys: seq<string>)
    ensures var m := LongestMatch(model, keys);
            if m.Some? then m.value in keys && ModelKeyMatches(model, m.value)
            else forall k :: k in keys ==> !ModelKeyMatches(model, k)
  {
    if keys != [] {
      LongestMatchIsAKey(model, keys[..|keys| - 1]);
      assert keys == keys[..|keys| - 1] + [keys[|keys| - 1]];
    }
  }

  /** The model name without its dated suffix. */
  function DirectLookup(rules: map<string, PricingRule>, model: string): Option<PricingRule> {
    if |model| >= 9 && IsDateSuffix(model[|model| - 9..]) then Get(rules, model[..|model| - 9]) else None
  }

  lemma DatedKeyIsUnique(model: string, key: string)
    requires model != key
    ensures ModelKeyMatches(model, key)
            <==> |model| >= 9 && IsDateSuffix(model[|model| - 9..]) && key == model[..|model| - 9]
  {
    if |model| >= 9 && key == model[..|model| - 9] { assert model[|key|..] == model[|model| - 9..]; }
  }

  /** The longest-match scan over every rule is one lookup: no second key can match. */
  lemma RuleLookupIsDirect(engine: PricingEngine, model: string)
    requires engine.Valid()
    ensures var exact := Lower(Trim(model)); var normalized := DotsToDashes(exact);
            FindRule(engine, model) == Or(Get(engine.overrides, exact),
                                          Or(Get(engine.rules, normalized), DirectLookup(engine.rules, normalized)))
  {
    var normalized := DotsToDashes(Lower(Trim(model)));
    var scanned := LongestMatch(normalized, engine.ruleOrder);
    LongestMatchIsAKey(normalized, engine.ruleOrder);
    if normalized !in engine.rules {
      if scanned.Some? { DatedKeyIsUnique(normalized, scanned.value); }
      if |normalized| >= 9 { DatedKeyIsUnique(normalized, normalized[..|normalized| - 9]); }
    }
  }

  lemma AtMostOneMatch(engine: PricingEngine, model: string, k1: string, k2: string)
    requires model !in engine.rules && k1 in engine.rules && k2 in engine.rules
    requires ModelKeyMatches(model, k1) && ModelKeyMatches(model, k2)
    ensures k1 == k2
  {
    DatedKeyIsUnique(model, k1);
    DatedKeyIsUnique(model, k2);
  }

  // ---- costs ----

  /** `i64::try_from` after a checked i128 computation. */
  function Narrow(x: int): Option<i64> { if FitsI64(x) then Some(x) else None }

  function ComponentCost(tokens: i64, rate: Option<i64>): Option<i64> {
    if tokens <= 0 then Some(0)
    else if rate.None? then None
    else
      var numerator := tokens * rate.value;
      if !FitsI128(numerator) || !FitsI128(numerator + 500_000) then None
      else Narrow(TruncDiv(numerator + 500_000, MILLION))
  }

  function MultiplyRate(rate: i64, numerator: i64, denominator: i64): Option<i64> {
    if !FitsI128(rate * numerator) then None
    else
      var sum := rate * numerator + TruncDiv(denominator, 2);
      if !FitsI128(sum) || denominator == 0 then None else Narrow(TruncDiv(sum, denominator))
  }

  function SelectRates(rule: Option<PricingRule>, tokens: UsageTokens): Rates {
    if rule.None? then NO_RATES
    else if rule.value.longContext.Some? && tokens.input > rule.value.longContext.value.threshold
    then rule.value.longContext.value.rates
    else rule.value.rates
  }

  function Known(cost: Option<i64>): i64 { cost.GetOr(0) }
  function Unpriced(tokens: i64, cost: Option<i64>): i64 { if tokens > 0 && cost.None? then tokens else 0 }

  /** The costs of one usage record at the given rates. */
  function CostsAt(rates: Rates, t: UsageTokens): UsageCosts {
    var input, output := ComponentCost(t.input, rates.input), ComponentCost(t.output, rates.output);
    var cache5m := ComponentCost(t.cacheCreation5m, rates.cacheCreation5m);
    var cache1h := ComponentCost(t.cacheCreation1h, rates.cacheCreation1h);
    var cacheRead := ComponentCost(t.cacheRead, rates.cacheRead);
    var known := SaturatingSum([Known(input), Known(output), Known(cache5m), Known(cache1h), Known(cacheRead)]);
    var unpriced := SaturatingSum([Unpriced(t.input, input), Unpriced(t.output, output),
                                   Unpriced(t.cacheCreation5m, cache5m), Unpriced(t.cacheCreation1h, cache1h),
                                   Unpriced(t.cacheRead, cacheRead)]);
    UsageCosts(input, output, cache5m, cache1h, cacheRead, known, unpriced == 0, unpriced)
  }

  /** `fold(0, i64::saturating_add)`. */
  function SaturatingSum(xs: seq<i64>): i64 {
    if xs == [] then 0 else SaturatingAdd(SaturatingSum(xs[..|xs| - 1]), xs[|xs| - 1])
  }

  function Price(engine: PricingEngine, model: string, tokens: UsageTokens): PricedUsage
    requires engine.Valid()
  {
    var rule := FindRule(engine, model);
    PricedUsage(CostsAt(SelectRates(rule, tokens), tokens), engine.version,
                if rule.Some? then Some(rule.value.modelKey) else None)
  }

  // ---- soundness of the arithmetic ----

  function ExactSum(xs: seq<i64>): int {
    if xs == [] then 0 else ExactSum(xs[..|xs| - 1]) + xs[|xs| - 1]
  }

  /** A saturating sum of non-negative terms is the exact sum, capped. */
  lemma {:induction false} SaturatingSumCaps(xs: seq<i64>)
    requires forall k :: 0 <= k < |xs| ==> xs[k] >= 0
    ensures ExactSum(xs) >= 0 && SaturatingSum(xs) == Cap(ExactSum(xs))
  {
    if xs != [] { SaturatingSumCaps(xs[..|xs| - 1]); }
  }

  lemma I64ProductFits(a: i64, b: i64)
    requires a >= 0 && b >= 0
    ensures 0 <= a * b && FitsI128(a * b + 500_000)
  {
    ProductBelow(a, b, I64_MAX);
  }

  lemma ProductBelow(a: nat, b: nat, bound: nat)
    requires a <= bound && b <= bound
    ensures 0 <= a * b <= bound * bound
  {
    assert a * b <= a * bound;
    assert a * bound <= bound * bound;
  }

  /** No i128 step overflows, and the result is tokens * rate / 10^6 rounded half up unless it leaves i64. */
  lemma ComponentCostIsExact(tokens: i64, rate: i64)
    requires tokens >= 0 && rate >= 0
    ensures tokens > 0 ==> FitsI128(tokens * rate) && FitsI128(tokens * rate + 500_000)
    ensures match ComponentCost(tokens, Some(rate))
            case Some(cost) => cost >= 0 && RoundsHalfUp(cost, tokens * rate, MILLION)
            case None => tokens * rate + 500_000 >= (I64_MAX + 1) * MILLION
  {
    I64ProductFits(tokens, rate);
    HalfDivisorRounds(tokens * rate, MILLION);
  }

  /** A derived cache rate is rate * numerator / denominator rounded half up, or does not fit an i64. */
  lemma MultiplyRateIsExact(rate: i64, numerator: i64, denominator: i64)
    requires rate >= 0 && numerator >= 0 && denominator > 0
    ensures match MultiplyRate(rate, numerator, denominator)
            case Some(product) => RoundsHalfUp(product, rate * numerator, denominator)
            case None => (rate * numerator + denominator / 2) / denominator > I64_MAX
  {
    ProductBelow(rate, numerator, I64_MAX);
    HalfDivisorRounds(rate * numerator, denominator);
  }

  predicate NonNegativeRates(r: Rates) {
    && r.input.GetOr(0) >= 0 && r.output.GetOr(0) >= 0 && r.cacheCreation5m.GetOr(0) >= 0
    && r.cacheCreation1h.GetOr(0) >= 0 && r.cacheRead.GetOr(0) >= 0
  }

  /** tokens * rate of a component that was priced, in millionths of a nano-USD. */
  function ExactComponent(tokens: i64, rate: Option<i64>): int {
    if tokens <= 0 || ComponentCost(tokens, rate).None? then 0 else tokens * rate.GetOr(0)
  }

  function ExactPriced(r: Rates, t: UsageTokens): int {
    ExactComponent(t.input, r.input) + ExactComponent(t.output, r.output)
    + ExactComponent(t.cacheCreation5m, r.cacheCreation5m) + ExactComponent(t.cacheCreation1h, r.cacheCreation1h)
    + ExactComponent(t.cacheRead, r.cacheRead)
  }

  lemma ComponentWithinHalf(tokens: i64, rate: Option<i64>)
    requires tokens >= 0 && rate.GetOr(0) >= 0
    ensures Known(ComponentCost(tokens, rate)) >= 0
    ensures -500_000 <= Known(ComponentCost(tokens, rate)) * MILLION - ExactComponent(tokens, rate) <= 500_000
  {
    if tokens > 0 && rate.Some? { ComponentCostIsExact(tokens, rate.value); }
  }

  function Parts(c: UsageCosts): seq<i64> {
    [Known(c.input), Known(c.output), Known(c.cacheCreation5m), Known(c.cacheCreation1h), Known(c.cacheRead)]
  }

  function UnpricedParts(c: UsageCosts, t: UsageTokens): seq<i64> {
    [Unpriced(t.input, c.input), Unpriced(t.output, c.output), Unpriced(t.cacheCreation5m, c.cacheCreation5m),
     Unpriced(t.cacheCreation1h, c.cacheCreation1h), Unpriced(t.cacheRead, c.cacheRead)]
  }

  lemma SumOfFive(a: i64, b: i64, c: i64, d: i64, e: i64)
    ensures ExactSum([a, b, c, d, e]) == a + b + c + d + e
  {
    assert ExactSum([a]) == a by { assert [a][..0] == []; }
    assert ExactSum([a, b]) == a + b by { assert [a, b][..1] == [a]; }
    assert ExactSum([a, b, c]) == a + b + c by { assert [a, b, c][..2] == [a, b]; }
    assert ExactSum([a, b, c, d]) == a + b + c + d by { assert [a, b, c, d][..3] == [a, b, c]; }
    assert [a, b, c, d, e][..4] == [a, b, c, d];
  }

  /** The known cost is within 2.5 nano-USD of the exact rational sum of the priced components,
      unless it sits at the i64 ceiling, where it can only be too low. */
  lemma KnownCostBound(r: Rates, t: UsageTokens)
    requires t.NonNegative() && NonNegativeRates(r)
    ensures CostsAt(r, t).known * MILLION <= ExactPriced(r, t) + 2_500_000
    ensures CostsAt(r, t).known < I64_MAX ==> ExactPriced(r, t) - 2_500_000 <= CostsAt(r, t).known * MILLION
  {
    var c := CostsAt(r, t);
    ComponentWithinHalf(t.input, r.input);
    ComponentWithinHalf(t.output, r.output);
    ComponentWithinHalf(t.cacheCreation5m, r.cacheCreation5m);
    ComponentWithinHalf(t.cacheCreation1h, r.cacheCreation1h);
    ComponentWithinHalf(t.cacheRead, r.cacheRead);
    SaturatingSumCaps(Parts(c));
    SumOfFive(Known(c.input), Known(c.output), Known(c.cacheCreation5m), Known(c.cacheCreation1h), Known(c.cacheRead));
  }

  /** tokens * rate over all five components, whether or not they were priced. */
  function ExactCost(r: Rates, t: UsageTokens): int {
    t.input * r.input.GetOr(0) + t.output * r.output.GetOr(0) + t.cacheCreation5m * r.cacheCreation5m.GetOr(0)
    + t.cacheCreation1h * r.cacheCreation1h.GetOr(0) + t.cacheRead * r.cacheRead.GetOr(0)
  }

  predicate EveryUsedComponentPriced(c: UsageCosts, t: UsageTokens) {
    && (t.input > 0 ==> c.input.Some?) && (t.output > 0 ==> c.output.Some?)
    && (t.cacheCreation5m > 0 ==> c.cacheCreation5m.Some?) && (t.cacheCreation1h > 0 ==> c.cacheCreation1h.Some?)
    && (t.cacheRead > 0 ==> c.cacheRead.Some?)
  }

  /** `complete` holds exactly when no component with tokens lacks a cost; even a saturated sum cannot hide one. */
  lemma CompleteExactly(r: Rates, t: UsageTokens)
    ensures CostsAt(r, t).complete <==> EveryUsedComponentPriced(CostsAt(r, t), t)
  {
    var c := CostsAt(r, t);
    SaturatingSumCaps(UnpricedParts(c, t));
    SumOfFive(Unpriced(t.input, c.input), Unpriced(t.output, c.output), Unpriced(t.cacheCreation5m, c.cacheCreation5m),
              Unpriced(t.cacheCreation1h, c.cacheCreation1h), Unpriced(t.cacheRead, c.cacheRead));
  }

  ghost predicate NonNegativeEngine(engine: PricingEngine) {
    && (forall k :: k in engine.rules ==> NonNegativeRule(engine.rules[k]))
    && (forall k :: k in engine.overrides ==> NonNegativeRule(engine.overrides[k]))
  }

  predicate NonNegativeRule(rule: PricingRule) {
    NonNegativeRates(rule.rates) && (rule.longContext.Some? ==> NonNegativeRates(rule.longContext.value.rates))
  }

  lemma UnpricedComponentCostsNothing(tokens: i64, rate: Option<i64>)
    requires tokens >= 0 && (tokens > 0 ==> ComponentCost(tokens, rate).Some?)
    ensures ExactComponent(tokens, rate) == tokens * rate.GetOr(0)
  {}

  /** A complete price below the i64 ceiling is within 2.5 nano-USD of the exact rational cost
      at the rates of the rule found for the model and the tier its input falls in. */
  lemma CompletePriceBound(engine: PricingEngine, model: string, t: UsageTokens)
    requires engine.Valid() && NonNegativeEngine(engine) && t.NonNegative()
    requires var costs := Price(engine, model, t).costs; costs.complete && costs.known < I64_MAX
    ensures var rule := FindRule(engine, model);
            var tiered := rule.Some? && rule.value.longContext.Some? && t.input > rule.value.longContext.value.threshold;
            var exact := if rule.None? then 0 else ExactCost(if tiered then rule.value.longContext.value.rates else rule.value.rates, t);
            -2_500_000 <= Price(engine, model, t).costs.known * MILLION - exact <= 2_500_000
  {
    var rates := SelectRates(FindRule(engine, model), t);
    FoundRuleIsStored(engine, model);
    CompleteExactly(rates, t);
    KnownCostBound(rates, t);
    UnpricedComponentCostsNothing(t.input, rates.input);
    UnpricedComponentCostsNothing(t.output, rates.output);
    UnpricedComponentCostsNothing(t.cacheCreation5m, rates.cacheCreation5m);
    UnpricedComponentCostsNothing(t.cacheCreation1h, rates.cacheCreation1h);
    UnpricedComponentCostsNothing(t.cacheRead, rates.cacheRead);
  }

  lemma FoundRuleIsStored(engine: PricingEngine, model: string)
    requires engine.Valid() && NonNegativeEngine(engine)
    ensures FindRule(engine, model).Some? ==> NonNegativeRule(FindRule(engine, model).value)
  {
    LongestMatchIsAKey(DotsToDashes(Lower(Trim(model))), engine.ruleOrder);
  }

  // ---- the price in plain terms ----

  /** What a component costs: nothing without tokens, unknown without a rate, else tokens times rate per million rounded
      half up, unknown when that leaves an i64. */
  predicate CostIs(cost: Option<i64>, tokens: i64, rate: Option<i64>) {
    if tokens <= 0 then cost == Some(0)
    else if rate.None? then cost == None
    else if cost.Some? then RoundsHalfUp(cost.value, tokens * rate.value, 1_000_000)
    else tokens * rate.value + 500_000 >= 0x8000_0000_0000_0000 * 1_000_000
  }

  lemma ComponentCostIs(tokens: i64, rate: Option<i64>)
    requires rate.GetOr(0) >= 0
    ensures CostIs(ComponentCost(tokens, rate), tokens, rate)
  {
    if tokens > 0 && rate.Some? { ComponentCostIsExact(tokens, rate.value); }
    hide RoundsHalfUp;
  }

  predicate IsUndated(model: string, name: string) {
    && |name| == |model| + 9 && name[..|model|] == model && name[|model|] == '-'
    && forall k :: |model| < k < |name| ==> '0' <= name[k] <= '9'
  }

  /** The rule for a name: an override under it, else a rule under it with dots as dashes, else the rule of that name
      without a dash and eight digits. */
  ghost predicate RuleFor(engine: PricingEngine, name: string, dashed: string, rule: Option<PricingRule>) {
    if name in engine.overrides then rule == Some(engine.overrides[name])
    else if dashed in engine.rules then rule == Some(engine.rules[dashed])
    else if exists model :: model in engine.rules && IsUndated(model, dashed)
    then exists model :: model in engine.rules && IsUndated(model, dashed) && rule == Some(engine.rules[model])
    else rule == None
  }

  /** ASCII letters in lower case, and dots as dashes, character by character. */
  lemma NamesAreNormalized(s: string, k: nat)
    requires k < |s|
    ensures |Lower(s)| == |s| == |DotsToDashes(s)|
    ensures Lower(s)[k] as int == if 'A' <= s[k] <= 'Z' then s[k] as int + 32 else s[k] as int
    ensures DotsToDashes(s)[k] == if s[k] == '.' then '-' else s[k]
  {}

  lemma FoundRuleIsFor(engine: PricingEngine, model: string)
    requires engine.Valid()
    ensures var name := Lower(Trim(model)); RuleFor(engine, name, DotsToDashes(name), FindRule(engine, model))
  {
    hide Trim, Lower, DotsToDashes;
    RuleLookupIsDirect(engine, model);
    var dashed := DotsToDashes(Lower(Trim(model)));
    forall m | IsUndated(m, dashed)
      ensures |dashed| >= 9 && IsDateSuffix(dashed[|dashed| - 9..]) && m == dashed[..|dashed| - 9]
    {
      assert dashed[|dashed| - 9..][1..] == dashed[|dashed| - 8..];
    }
    if |dashed| >= 9 && IsDateSuffix(dashed[|dashed| - 9..]) {
      assert forall k :: |dashed| - 8 <= k < |dashed| ==> dashed[k] == dashed[|dashed| - 9..][1..][k - (|dashed| - 8)];
      assert IsUndated(dashed[..|dashed| - 9], dashed);
    }
  }

  function CappedSum(a: int, b: int, c: int, d: int, e: int): int {
    if a + b + c + d + e > 0x7FFF_FFFF_FFFF_FFFF then 0x7FFF_FFFF_FFFF_FFFF else a + b + c + d + e
  }

  function Missing(tokens: i64, cost: Option<i64>): int { if tokens > 0 && cost.None? then tokens else 0 }

  /** The whole price: version and rule key of the rule found, each component at the long-context tier's rate when there
      is a tier and the input exceeds its threshold, else at the rule's own, and the sums and completeness of these. */
  lemma PriceSays(engine: PricingEngine, model: string, t: UsageTokens)
    requires engine.Valid() && NonNegativeEngine(engine) && t.NonNegative()
    ensures var p, rule := Price(engine, model, t), FindRule(engine, model); var costs := p.costs;
            var tiered := rule.Some? && rule.value.longContext.Some? && t.input > rule.value.longContext.value.threshold;
            var rates := if rule.None? then Rates(None, None, None, None, None)
                         else if tiered then rule.value.longContext.value.rates else rule.value.rates;
            && p.pricingVersion == engine.version && p.modelKey == (if rule.Some? then Some(rule.value.modelKey) else None)
            && CostIs(costs.input, t.input, rates.input) && CostIs(costs.output, t.output, rates.output)
            && CostIs(costs.cacheCreation5m, t.cacheCreation5m, rates.cacheCreation5m)
            && CostIs(costs.cacheCreation1h, t.cacheCreation1h, rates.cacheCreation1h) && CostIs(costs.cacheRead, t.cacheRead, rates.cacheRead)
            && costs.known as int == CappedSum(costs.input.GetOr(0), costs.output.GetOr(0), costs.cacheCreation5m.GetOr(0),
                                               costs.cacheCreation1h.GetOr(0), costs.cacheRead.GetOr(0))
            && costs.unpricedTokens as int == CappedSum(Missing(t.input, costs.input), Missing(t.output, costs.output),
                                                        Missing(t.cacheCreation5m, costs.cacheCreation5m),
                                                        Missing(t.cacheCreation1h, costs.cacheCreation1h), Missing(t.cacheRead, costs.cacheRead))
            && (costs.complete <==> costs.unpricedTokens == 0)
  {
    FoundRuleIsStored(engine, model);
    hide ComponentCost, FindRule, CostIs, RoundsHalfUp, SaturatingSum;
    var rates := SelectRates(FindRule(engine, model), t);
    CostsSay(rates, t);
  }

  lemma CostsSay(r: Rates, t: UsageTokens)
    requires NonNegativeRates(r) && t.NonNegative()
    ensures var costs := CostsAt(r, t);
            && CostIs(costs.input, t.input, r.input) && CostIs(costs.output, t.output, r.output)
            && CostIs(costs.cacheCreation5m, t.cacheCreation5m, r.cacheCreation5m)
            && CostIs(costs.cacheCreation1h, t.cacheCreation1h, r.cacheCreation1h) && CostIs(costs.cacheRead, t.cacheRead, r.cacheRead)
            && costs.known as int == CappedSum(costs.input.GetOr(0), costs.output.GetOr(0), costs.cacheCreation5m.GetOr(0),
                                               costs.cacheCreation1h.GetOr(0), costs.cacheRead.GetOr(0))
            && costs.unpricedTokens as int == CappedSum(Missing(t.input, costs.input), Missing(t.output, costs.output),
                                                        Missing(t.cacheCreation5m, costs.cacheCreation5m),
                                                        Missing(t.cacheCreation1h, costs.cacheCreation1h), Missing(t.cacheRead, costs.cacheRead))
            && (costs.complete <==> costs.unpricedTokens == 0)
  {
    hide ComponentCost, CostIs, RoundsHalfUp, SaturatingSum;
    var c := CostsAt(r, t);
    ComponentCostIs(t.input, r.input);
    ComponentCostIs(t.output, r.output);
    ComponentCostIs(t.cacheCreation5m, r.cacheCreation5m);
    ComponentCostIs(t.cacheCreation1h, r.cacheCreation1h);
    ComponentCostIs(t.cacheRead, r.cacheRead);
    ComponentWithinHalf(t.input, r.input);
    ComponentWithinHalf(t.output, r.output);
    ComponentWithinHalf(t.cacheCreation5m, r.cacheCreation5m);
    ComponentWithinHalf(t.cacheCreation1h, r.cacheCreation1h);
    ComponentWithinHalf(t.cacheRead, r.cacheRead);
    hide ExactComponent;
    SaturatingSumCaps(Parts(c));
    SaturatingSumCaps(UnpricedParts(c, t));
    SumOfFive(Known(c.input), Known(c.output), Known(c.cacheCreation5m), Known(c.cacheCreation1h), Known(c.cacheRead));
    SumOfFive(Unpriced(t.input, c.input), Unpriced(t.output, c.output), Unpriced(t.cacheCreation5m, c.cacheCreation5m),
              Unpriced(t.cacheCreation1h, c.cacheCreation1h), Unpriced(t.cacheRead, c.cacheRead));
  }

  /** One row's term of the daily query: the tokens of every component whose cost column is NULL. */
  function SqlUnpriced(c: UsageCosts, t: UsageTokens): int {
    (if c.input.None? then t.input else 0) + (if c.output.None? then t.output else 0)
    + (if c.cacheCreation5m.None? then t.cacheCreation5m else 0)
    + (if c.cacheCreation1h.None? then t.cacheCreation1h else 0)
    + (if c.cacheRead.None? then t.cacheRead else 0)
  }

  /** The query's term is `unpricedTokens` of the pricing run exactly when the sum fits an i64. */
  lemma SqlUnpricedAgrees(r: Rates, t: UsageTokens)
    ensures SqlUnpriced(CostsAt(r, t), t) >= 0
    ensures SqlUnpriced(CostsAt(r, t), t) == CostsAt(r, t).unpricedTokens
            <==> SqlUnpriced(CostsAt(r, t), t) <= I64_MAX
  {
    var c := CostsAt(r, t);
    SaturatingSumCaps(UnpricedParts(c, t));
    SumOfFive(Unpriced(t.input, c.input), Unpriced(t.output, c.output), Unpriced(t.cacheCreation5m, c.cacheCreation5m),
              Unpriced(t.cacheCreation1h, c.cacheCreation1h), Unpriced(t.cacheRead, c.cacheRead));
  }
}
