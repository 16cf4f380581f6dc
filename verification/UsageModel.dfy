/** Token counts, costs and report metrics (src/model/usage.rs). */
module UsageModel {
  import opened Wrappers
  import opened Numeric

  datatype UsageTokens = UsageTokens(input: i64, output: i64, cacheCreation5m: i64, cacheCreation1h: i64, cacheRead: i64) {
    predicate NonNegative() {
      input >= 0 && output >= 0 && cacheCreation5m >= 0 && cacheCreation1h >= 0 && cacheRead >= 0
    }

    function Total(): i64 {
      SaturatingAdd(SaturatingAdd(SaturatingAdd(SaturatingAdd(input, output), cacheCreation5m), cacheCreation1h), cacheRead)
    }

    /** `add_assign`, as the value it leaves in the receiver. */
    function Plus(other: UsageTokens): UsageTokens {
      UsageTokens(SaturatingAdd(input, other.input), SaturatingAdd(output, other.output),
                  SaturatingAdd(cacheCreation5m, other.cacheCreation5m),
                  SaturatingAdd(cacheCreation1h, other.cacheCreation1h), SaturatingAdd(cacheRead, other.cacheRead))
    }
  }

  const NO_TOKENS := UsageTokens(0, 0, 0, 0, 0)

  datatype UsageCosts = UsageCosts(
    input: Option<i64>, output: Option<i64>, cacheCreation5m: Option<i64>, cacheCreation1h: Option<i64>,
    cacheRead: Option<i64>, known: i64, complete: bool, unpricedTokens: i64)

  datatype UsageMetrics = UsageMetrics(
    requestCount: i64, tokens: UsageTokens, knownCost: i64, costComplete: bool,
    unpricedRequests: i64, unpricedTokens: i64)
  {
    /** `add_assign`: every counter saturates and completeness is recomputed. */
    function Plus(other: UsageMetrics): UsageMetrics {
      var unpriced := SaturatingAdd(unpricedRequests, other.unpricedRequests);
      UsageMetrics(SaturatingAdd(requestCount, other.requestCount), tokens.Plus(other.tokens),
                   SaturatingAdd(knownCost, other.knownCost), unpriced == 0, unpriced,
                   SaturatingAdd(unpricedTokens, other.unpricedTokens))
    }

    /** What a daily row satisfies: sums of non-negative columns, completeness derived. */
    predicate Counting() {
      && requestCount >= 0 && tokens.NonNegative() && knownCost >= 0 && unpricedRequests >= 0 && unpricedTokens >= 0
      && (costComplete <==> unpricedRequests == 0)
    }
  }

  const ZERO_METRICS := UsageMetrics(0, NO_TOKENS, 0, true, 0, 0)

  // ---- the exact sums behind the counters ----

  datatype Measure = Requests | InputTokens | OutputTokens | CacheCreation5mTokens | CacheCreation1hTokens | CacheReadTokens
    | KnownCost | UnpricedRequests | UnpricedTokens

  function Measured(m: UsageMetrics, k: Measure): i64 {
    match k
    case Requests => m.requestCount
    case InputTokens => m.tokens.input
    case OutputTokens => m.tokens.output
    case CacheCreation5mTokens => m.tokens.cacheCreation5m
    case CacheCreation1hTokens => m.tokens.cacheCreation1h
    case CacheReadTokens => m.tokens.cacheRead
    case KnownCost => m.knownCost
    case UnpricedRequests => m.unpricedRequests
    case UnpricedTokens => m.unpricedTokens
  }

  /** The metrics show these exact sums, each capped at the largest i64, and are complete when nothing is unpriced. */
  ghost predicate ShowsSums(m: UsageMetrics, sum: Measure -> int) {
    && (forall k: Measure :: sum(k) >= 0 && Measured(m, k) as int == if sum(k) > 0x7FFF_FFFF_FFFF_FFFF then 0x7FFF_FFFF_FFFF_FFFF else sum(k))
    && (m.costComplete <==> sum(UnpricedRequests) == 0)
  }

  lemma ZeroShowsNothing(sum: Measure -> int)
    requires forall k: Measure :: sum(k) == 0
    ensures ShowsSums(ZERO_METRICS, sum)
  {}

  lemma PlusShowsSums(a: UsageMetrics, b: UsageMetrics, before: Measure -> int, after: Measure -> int)
    requires ShowsSums(a, before) && b.Counting() && forall k: Measure :: after(k) == before(k) + Measured(b, k)
    ensures ShowsSums(a.Plus(b), after)
  {
    forall k: Measure
      ensures Measured(a.Plus(b), k) as int == if after(k) > I64_MAX then I64_MAX else after(k)
      ensures after(k) >= 0
    {
      assert Measured(a.Plus(b), k) == SaturatingAdd(Measured(a, k), Measured(b, k));
    }
  }

  /** The token total is the exact sum of the five components, capped. */
  lemma TotalIsCappedSum(t: UsageTokens)
    requires t.NonNegative()
    ensures var sum := t.input + t.output + t.cacheCreation5m + t.cacheCreation1h + t.cacheRead;
            t.Total() == if sum > 0x7FFF_FFFF_FFFF_FFFF then 0x7FFF_FFFF_FFFF_FFFF else sum
  {}

  lemma PlusCounts(a: UsageMetrics, b: UsageMetrics)
    requires a.Counting() && b.Counting()
    ensures a.Plus(b).Counting()
  {}

  lemma PlusCommutes(a: UsageMetrics, b: UsageMetrics)
    ensures a.Plus(b) == b.Plus(a)
  {}

  /** Saturating addition is not associative in general; on counting metrics it is. */
  lemma PlusAssociates(a: UsageMetrics, b: UsageMetrics, c: UsageMetrics)
    requires a.Counting() && b.Counting() && c.Counting()
    ensures a.Plus(b).Plus(c) == a.Plus(b.Plus(c))
  {}

  lemma PlusZero(a: UsageMetrics)
    requires a.Counting()
    ensures a.Plus(ZERO_METRICS) == a && ZERO_METRICS.Plus(a) == a
  {}

  /** Without the signs, grouping shows exactly when a partial sum saturates and the remaining term would lead back. */
  lemma SaturatingAddAssociatesExactly(a: i64, b: i64, c: i64)
    ensures SaturatingAdd(SaturatingAdd(a, b), c) == SaturatingAdd(a, SaturatingAdd(b, c))
            <==> && !(a + b > I64_MAX && c < 0) && !(a + b < I64_MIN && c > 0)
                 && !(b + c > I64_MAX && a < 0) && !(b + c < I64_MIN && a > 0)
  {}
}
