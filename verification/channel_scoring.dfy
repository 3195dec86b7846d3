/** The channel-quality scorer of service/youTube/algorithm.ts: a
    multiplicative over-performance modifier, log-scaled subscriber and view
    terms, a capped engagement term, and a weighted average turned into a
    score from 0 (best) to 10 (worst). */
module ChannelScoring {
  import opened Prelude

  datatype ChannelMetrics = ChannelMetrics(subscribers: real, viewsPerVideo: real, engagementRatio: real)

  /** The "high" reference value of each metric. */
  datatype NormalizationFactors = NormalizationFactors(
    maxSubscribers: real,
    maxViewsPerVideo: real,
    maxEngagementRatio: real)

  /** Relative importance of each metric; they need not sum to 1. */
  datatype Weights = Weights(subscribers: real, totalViews: real, engagement: real)

  // ------------------------------------------------------- the logarithm

  /** What the scorer needs of `Math.log`: it is 0 at 1 and strictly
      increasing on the positive reals. The logarithm itself is a parameter. */
  ghost predicate IsLog(ln: real -> real)
  {
    ln(1.0) == 0.0 && forall x, y :: 0.0 < x < y ==> ln(x) < ln(y)
  }

  lemma LogSign(ln: real -> real, x: real)
    requires IsLog(ln) && x >= 1.0
    ensures ln(x) >= 0.0
    ensures x > 1.0 ==> ln(x) > 0.0
  {
    if x > 1.0 {
      assert ln(1.0) < ln(x);
    }
  }

  /** `Math.pow` for a natural exponent. */
  function Pow(x: real, n: nat): real
  {
    if n == 0 then 1.0 else x * Pow(x, n - 1)
  }

  /** On the non-negative reals a power is non-negative and monotone. */
  lemma {:induction false} PowMonotone(x: real, y: real, n: nat)
    requires 0.0 <= x <= y
    ensures 0.0 <= Pow(x, n) <= Pow(y, n)
  {
    if n > 0 {
      PowMonotone(x, y, n - 1);
      MulBounds(x, Pow(x, n - 1), x, y, Pow(x, n - 1), Pow(y, n - 1));
    }
  }

  lemma {:induction false} PowOne(n: nat)
    ensures Pow(1.0, n) == 1.0
  {
    if n > 0 {
      PowOne(n - 1);
    }
  }

  /** Logarithmic normalisation with cubic compression, capped at 1. */
  function NormalizeLog(value: real, maxValue: real, ln: real -> real): (r: real)
    requires IsLog(ln) && maxValue > 0.0 && value > -1.0
    ensures r <= 1.0
    ensures value == 0.0 ==> r == 0.0
    ensures value >= 0.0 ==> r >= 0.0
    ensures value >= maxValue ==> r == 1.0
  {
    LogSign(ln, maxValue + 1.0);
    var normalized := ln(value + 1.0) / ln(maxValue + 1.0);
    assert value >= 0.0 ==> Pow(normalized, 3) >= 0.0 by {
      if value >= 0.0 {
        LogSign(ln, value + 1.0);
        DivCompare(ln(value + 1.0), ln(maxValue + 1.0), 0.0);
        PowMonotone(0.0, normalized, 3);
      }
    }
    assert value >= maxValue ==> Pow(normalized, 3) >= 1.0 by {
      if value >= maxValue {
        assert ln(maxValue + 1.0) <= ln(value + 1.0);
        DivCompare(ln(value + 1.0), ln(maxValue + 1.0), 1.0);
        PowMonotone(1.0, normalized, 3);
        PowOne(3);
      }
    }
    Min(Pow(normalized, 3), 1.0)
  }

  /** For non-negative values the normalisation never decreases. */
  lemma NormalizeLogMonotone(v1: real, v2: real, maxValue: real, ln: real -> real)
    requires IsLog(ln) && maxValue > 0.0 && 0.0 <= v1 <= v2
    ensures NormalizeLog(v1, maxValue, ln) <= NormalizeLog(v2, maxValue, ln)
  {
    var d := ln(maxValue + 1.0);
    var a1, a2 := ln(v1 + 1.0), ln(v2 + 1.0);
    LogSign(ln, maxValue + 1.0);
    LogSign(ln, v1 + 1.0);
    assert a1 <= a2;
    DivCompare(a1, d, 0.0);
    DivMonotone(a1, a2, d);
    PowMonotone(a1 / d, a2 / d, 3);
  }

  // ------------------------------------------------------------ modifier

  /** One conditional step of the modifier: when a metric's ratio to its
      reference is above 1 the modifier is multiplied by that ratio, capped
      at 1.2; otherwise it is left alone. */
  function Boosted(modifier: real, ratio: real): real
  {
    if ratio > 1.0 then modifier * Min(ratio, 1.2) else modifier
  }

  /** A step never lowers a non-negative modifier and raises it by at most
      the cap, reached from a ratio of 1.2 on; it raises a positive modifier
      exactly when the ratio is above 1. */
  lemma BoostedBounds(modifier: real, ratio: real)
    requires modifier >= 0.0
    ensures modifier <= Boosted(modifier, ratio) <= modifier * 1.2
    ensures ratio <= 1.0 ==> Boosted(modifier, ratio) == modifier
    ensures ratio >= 1.2 ==> Boosted(modifier, ratio) == modifier * 1.2
    ensures modifier > 0.0 ==> (Boosted(modifier, ratio) > modifier <==> ratio > 1.0)
  {
    if ratio > 1.0 {
      MulBetween(modifier, Min(ratio, 1.2), 1.2);
      assert Boosted(modifier, ratio) == modifier * Min(ratio, 1.2);
    } else {
      MulBetween(modifier, 1.0, 1.2);
    }
  }

  /** In terms of the metric itself: a positive modifier is raised exactly
      when the metric exceeds its reference, and by the full 1.2 from 1.2
      times the reference on. */
  lemma BoostedOfMetric(modifier: real, metric: real, reference: real)
    requires modifier > 0.0 && reference > 0.0
    ensures Boosted(modifier, metric / reference) > modifier <==> metric > reference
    ensures metric <= reference ==> Boosted(modifier, metric / reference) == modifier
    ensures metric >= 1.2 * reference ==> Boosted(modifier, metric / reference) == modifier * 1.2
  {
    DivCompare(metric, reference, 1.0);
    DivCompare(metric, reference, 1.2);
    BoostedBounds(modifier, metric / reference);
  }

  /** The conditional step as the scorer runs it. */
  method ApplyOverPerformance(modifier: real, ratio: real) returns (boosted: real)
    ensures boosted == Boosted(modifier, ratio)
  {
    boosted := modifier;
    if ratio > 1.0 {
      boosted := boosted * Min(ratio, 1.2);
    }
  }

  /** The views-per-subscriber factor, clamped to [0.8, 1.2]. */
  function ViewsPerSubscriberFactor(ratio: real): (f: real)
    ensures 0.8 <= f <= 1.2
    ensures ratio >= 1.0 ==> f >= 1.0
    ensures ratio >= 1.2 ==> f == 1.2
    ensures ratio <= 0.8 ==> f == 0.8
    ensures 0.8 <= ratio <= 1.2 ==> f == ratio
  {
    Max(Min(ratio, 1.2), 0.8)
  }

  /** The last, unconditional step: the modifier times the clamped
      views-per-subscriber factor. */
  function Scaled(modifier: real, ratio: real): real
  {
    modifier * ViewsPerSubscriberFactor(ratio)
  }

  /** The unconditional step as the scorer runs it. */
  method ApplyViewsPerSubscriber(modifier: real, ratio: real) returns (scaled: real)
    ensures scaled == Scaled(modifier, ratio)
  {
    scaled := modifier * Max(Min(ratio, 1.2), 0.8);
  }

  /** Three boosts starting from 1 give a value in [1, 1.2^3], and exactly 1
      when no ratio is above 1. */
  lemma BoostChainBounds(r1: real, r2: real, r3: real)
    ensures 1.0 <= Boosted(Boosted(Boosted(1.0, r1), r2), r3) <= 1.728
    ensures r1 <= 1.0 && r2 <= 1.0 && r3 <= 1.0
            ==> Boosted(Boosted(Boosted(1.0, r1), r2), r3) == 1.0
  {
    var b1 := Boosted(1.0, r1);
    BoostedBounds(1.0, r1);
    var b2 := Boosted(b1, r2);
    BoostedBounds(b1, r2);
    BoostedBounds(b2, r3);
  }

  /** A factor in [0.8, 1.2] keeps a value from [1, 1.2^3] within
      [0.8, 1.2^4], and does not lower it when the factor is at least 1. */
  lemma FactorBounds(m: real, f: real)
    requires 1.0 <= m <= 1.728 && 0.8 <= f <= 1.2
    ensures 0.8 <= m * f <= 2.0736
    ensures f >= 1.0 ==> m * f >= m
  {
    var p := m * f;
    MulNonNeg(m - 1.0, f);
    assert (m - 1.0) * f == p - f;
    assert p >= f;
    MulNonNeg(1.728 - m, f);
    assert (1.728 - m) * f == 1.728 * f - p;
    assert p <= 1.728 * f;
    if f >= 1.0 {
      MulNonNeg(m, f - 1.0);
      assert m * (f - 1.0) == p - m;
    }
  }

  /** The last step keeps a modifier from [1, 1.2^3] within [0.8, 1.2^4], and
      at least 1 when the ratio is at least 1. */
  lemma ScaledBounds(modifier: real, ratio: real)
    requires 1.0 <= modifier <= 1.728
    ensures 0.8 <= Scaled(modifier, ratio) <= 2.0736
    ensures ratio >= 1.0 ==> Scaled(modifier, ratio) >= modifier
  {
    var f := ViewsPerSubscriberFactor(ratio);
    FactorBounds(modifier, f);
    assert Scaled(modifier, ratio) == modifier * f;
  }

  /** The references the scorer divides by are positive, and so is the
      subscriber count it divides by. */
  predicate Scorable(metrics: ChannelMetrics, normalization: NormalizationFactors)
  {
    normalization.maxSubscribers > 0.0 && normalization.maxViewsPerVideo > 0.0
    && normalization.maxEngagementRatio > 0.0 && metrics.subscribers > 0.0
  }

  /** The modifier after the three conditional boosts, starting from 1. */
  function Boost(metrics: ChannelMetrics, normalization: NormalizationFactors): real
    requires Scorable(metrics, normalization)
  {
    Boosted(Boosted(Boosted(1.0, metrics.subscribers / normalization.maxSubscribers),
                    metrics.viewsPerVideo / normalization.maxViewsPerVideo),
            metrics.engagementRatio / normalization.maxEngagementRatio)
  }

  /** The full modifier: the boosts times the views-per-subscriber factor. */
  function Modifier(metrics: ChannelMetrics, normalization: NormalizationFactors): real
    requires Scorable(metrics, normalization)
  {
    Scaled(Boost(metrics, normalization), (metrics.viewsPerVideo * 2.0) / metrics.subscribers)
  }

  /** The boosts multiply to between 1 and 1.2^3, and to exactly 1 when no
      metric exceeds its reference. */
  lemma BoostBounds(metrics: ChannelMetrics, normalization: NormalizationFactors)
    requires Scorable(metrics, normalization)
    ensures 1.0 <= Boost(metrics, normalization) <= 1.728
    ensures metrics.subscribers <= normalization.maxSubscribers
         && metrics.viewsPerVideo <= normalization.maxViewsPerVideo
         && metrics.engagementRatio <= normalization.maxEngagementRatio
         ==> Boost(metrics, normalization) == 1.0
  {
    DivCompare(metrics.subscribers, normalization.maxSubscribers, 1.0);
    DivCompare(metrics.viewsPerVideo, normalization.maxViewsPerVideo, 1.0);
    DivCompare(metrics.engagementRatio, normalization.maxEngagementRatio, 1.0);
    BoostChainBounds(metrics.subscribers / normalization.maxSubscribers,
                     metrics.viewsPerVideo / normalization.maxViewsPerVideo,
                     metrics.engagementRatio / normalization.maxEngagementRatio);
  }

  /** The modifier lies in [0.8, 1.2^4]; it is at least 1 when a video
      averages at least half as many views as there are subscribers. */
  lemma ModifierBounds(metrics: ChannelMetrics, normalization: NormalizationFactors)
    requires Scorable(metrics, normalization)
    ensures 0.8 <= Modifier(metrics, normalization) <= 2.0736
    ensures 2.0 * metrics.viewsPerVideo >= metrics.subscribers ==> Modifier(metrics, normalization) >= 1.0
  {
    BoostBounds(metrics, normalization);
    DivCompare(metrics.viewsPerVideo * 2.0, metrics.subscribers, 1.0);
    ScaledBounds(Boost(metrics, normalization), (metrics.viewsPerVideo * 2.0) / metrics.subscribers);
  }

  /** The modifier block of the scorer: three conditional boosts and the
      views-per-subscriber factor. */
  method ComputeModifier(metrics: ChannelMetrics, normalization: NormalizationFactors)
    returns (modifier: real)
    requires Scorable(metrics, normalization)
    ensures modifier == Modifier(metrics, normalization)
  {
    modifier := 1.0;
    modifier := ApplyOverPerformance(modifier, metrics.subscribers / normalization.maxSubscribers);
    modifier := ApplyOverPerformance(modifier, metrics.viewsPerVideo / normalization.maxViewsPerVideo);
    modifier := ApplyOverPerformance(modifier, metrics.engagementRatio / normalization.maxEngagementRatio);
    modifier := ApplyViewsPerSubscriber(modifier, (metrics.viewsPerVideo * 2.0) / metrics.subscribers);
  }

  // --------------------------------------------------------- the average

  /** Engagement against its reference, capped at 1. */
  function NormEngagement(engagementRatio: real, maxEngagementRatio: real): (r: real)
    requires maxEngagementRatio > 0.0
    ensures r <= 1.0
    ensures engagementRatio >= 0.0 ==> r >= 0.0
    ensures engagementRatio >= maxEngagementRatio ==> r == 1.0
  {
    QuotientBounds(engagementRatio, maxEngagementRatio);
    Min(engagementRatio / maxEngagementRatio, 1.0)
  }

  /** The three metrics after normalisation. */
  datatype Normalized = Normalized(subscribers: real, viewsPerVideo: real, engagement: real)

  /** Subscribers and views on the log scale, engagement linearly; none
      above 1, none below 0 for non-negative metrics, each 1 at or above
      its reference. */
  function Normalize(metrics: ChannelMetrics, normalization: NormalizationFactors,
                     ln: real -> real): (n: Normalized)
    requires IsLog(ln) && Scorable(metrics, normalization) && metrics.viewsPerVideo > -1.0
    ensures n.subscribers <= 1.0 && n.viewsPerVideo <= 1.0 && n.engagement <= 1.0
    ensures 0.0 <= n.subscribers
    ensures metrics.viewsPerVideo >= 0.0 ==> 0.0 <= n.viewsPerVideo
    ensures metrics.engagementRatio >= 0.0 ==> 0.0 <= n.engagement
    ensures metrics.subscribers >= normalization.maxSubscribers ==> n.subscribers == 1.0
    ensures metrics.viewsPerVideo >= normalization.maxViewsPerVideo ==> n.viewsPerVideo == 1.0
    ensures metrics.engagementRatio >= normalization.maxEngagementRatio ==> n.engagement == 1.0
  {
    Normalized(
      NormalizeLog(metrics.subscribers, normalization.maxSubscribers, ln),
      NormalizeLog(metrics.viewsPerVideo, normalization.maxViewsPerVideo, ln),
      NormEngagement(metrics.engagementRatio, normalization.maxEngagementRatio))
  }

  /** The weighted sum of the three normalised metrics. */
  function WeightedSum(weights: Weights, n: Normalized): real
  {
    weights.subscribers * n.subscribers + weights.totalViews * n.viewsPerVideo
    + weights.engagement * n.engagement
  }

  function TotalWeight(weights: Weights): real
  {
    weights.subscribers + weights.totalViews + weights.engagement
  }

  predicate NonNegative(metrics: ChannelMetrics, weights: Weights)
  {
    metrics.viewsPerVideo >= 0.0 && metrics.engagementRatio >= 0.0
    && weights.subscribers >= 0.0 && weights.totalViews >= 0.0 && weights.engagement >= 0.0
  }

  /** A non-negative weight times a value in [0, 1] lies between 0 and the weight. */
  lemma WeightedTerm(w: real, x: real)
    requires w >= 0.0 && 0.0 <= x <= 1.0
    ensures 0.0 <= w * x <= w
  {
    MulNonNeg(w, x);
    MulNonNeg(w, 1.0 - x);
    assert w - w * x == w * (1.0 - x);
  }

  /** Three weighted terms, each between 0 and its weight, sum to a value
      between 0 and the sum of the weights. */
  lemma ThreeTermBounds(ws: real, wv: real, we: real, s: real, v: real, e: real)
    requires ws >= 0.0 && wv >= 0.0 && we >= 0.0
    requires 0.0 <= s <= 1.0 && 0.0 <= v <= 1.0 && 0.0 <= e <= 1.0
    ensures 0.0 <= ws * s + wv * v + we * e <= ws + wv + we
  {
    var a, b, c := ws * s, wv * v, we * e;
    WeightedTerm(ws, s);
    assert 0.0 <= a <= ws;
    WeightedTerm(wv, v);
    assert 0.0 <= b <= wv;
    WeightedTerm(we, e);
    assert 0.0 <= c <= we;
    assert a + b + c <= ws + wv + we;
  }

  /** With non-negative weights and normalised values in [0, 1], the sum lies
      between 0 and the total weight. */
  lemma WeightedSumBounds(weights: Weights, n: Normalized)
    requires weights.subscribers >= 0.0 && weights.totalViews >= 0.0 && weights.engagement >= 0.0
    requires 0.0 <= n.subscribers <= 1.0 && 0.0 <= n.viewsPerVideo <= 1.0 && 0.0 <= n.engagement <= 1.0
    ensures 0.0 <= WeightedSum(weights, n) <= TotalWeight(weights)
  {
    ThreeTermBounds(weights.subscribers, weights.totalViews, weights.engagement,
                    n.subscribers, n.viewsPerVideo, n.engagement);
  }

  /** `averageScore`: the modified weighted sum over the total weight,
      capped at 1. */
  function AverageScore(rawScore: real, totalWeight: real): (a: real)
    requires totalWeight != 0.0
    ensures a <= 1.0
  {
    Min(rawScore / totalWeight, 1.0)
  }

  /** With a positive total weight the average is at least 0 for a
      non-negative raw score, and it reaches the cap exactly when the raw
      score reaches the total weight. */
  lemma AverageScoreBounds(rawScore: real, totalWeight: real)
    requires totalWeight > 0.0
    ensures rawScore >= 0.0 ==> AverageScore(rawScore, totalWeight) >= 0.0
    ensures AverageScore(rawScore, totalWeight) == 1.0 <==> rawScore >= totalWeight
  {
    DivCompare(rawScore, totalWeight, 0.0);
    DivCompare(rawScore, totalWeight, 1.0);
  }

  /** With every normalised value at its cap the sum is the total weight. */
  lemma WeightedSumAtCap(weights: Weights, n: Normalized)
    requires n.subscribers == 1.0 && n.viewsPerVideo == 1.0 && n.engagement == 1.0
    ensures WeightedSum(weights, n) == TotalWeight(weights)
  {
  }

  /** The score for a modified weighted sum: `10 - averageScore * 10`. */
  function ScoreOf(rawScore: real, totalWeight: real): real
    requires totalWeight != 0.0
  {
    10.0 - AverageScore(rawScore, totalWeight) * 10.0
  }

  /** The score is never negative; it is 0 exactly when the raw score
      reaches the total weight, and at most 10 for a non-negative raw score
      and a positive total weight. */
  lemma ScoreOfBounds(rawScore: real, totalWeight: real)
    requires totalWeight != 0.0
    ensures ScoreOf(rawScore, totalWeight) >= 0.0
    ensures totalWeight > 0.0 ==> (ScoreOf(rawScore, totalWeight) == 0.0 <==> rawScore >= totalWeight)
    ensures totalWeight > 0.0 && rawScore >= 0.0 ==> ScoreOf(rawScore, totalWeight) <= 10.0
  {
    if totalWeight > 0.0 {
      AverageScoreBounds(rawScore, totalWeight);
    }
  }

  /** The score for a weighted sum, the modifier that scales it and the
      total weight it is averaged over. */
  function ScoreFor(weightedSum: real, modifier: real, totalWeight: real): real
    requires totalWeight != 0.0
  {
    ScoreOf(weightedSum * modifier, totalWeight)
  }

  /** The score is never negative; it is at most 10 for a non-negative sum
      and modifier, and 0 once the sum reaches the total weight and the
      modifier is at least 1. */
  lemma ScoreForBounds(weightedSum: real, modifier: real, totalWeight: real)
    requires totalWeight != 0.0
    ensures ScoreFor(weightedSum, modifier, totalWeight) >= 0.0
    ensures totalWeight > 0.0 && weightedSum >= 0.0 && modifier >= 0.0
            ==> ScoreFor(weightedSum, modifier, totalWeight) <= 10.0
    ensures totalWeight > 0.0 && weightedSum >= totalWeight && modifier >= 1.0
            ==> ScoreFor(weightedSum, modifier, totalWeight) == 0.0
  {
    var raw := weightedSum * modifier;
    ScoreOfBounds(raw, totalWeight);
    if weightedSum >= 0.0 && modifier >= 0.0 {
      MulNonNeg(weightedSum, modifier);
    }
    if totalWeight > 0.0 && weightedSum >= totalWeight && modifier >= 1.0 {
      MulNonNeg(weightedSum, modifier - 1.0);
      assert weightedSum * (modifier - 1.0) == raw - weightedSum;
      assert raw >= totalWeight;
    }
  }

  /** The scoring block of the scorer: the weighted sum, scaled by the
      modifier, averaged over the total weight, capped and turned into a
      score. */
  method ComputeScore(n: Normalized, modifier: real, weights: Weights) returns (score: real)
    requires TotalWeight(weights) != 0.0
    ensures score == ScoreFor(WeightedSum(weights, n), modifier, TotalWeight(weights))
  {
    var rawScore := weights.subscribers * n.subscribers
      + weights.totalViews * n.viewsPerVideo
      + weights.engagement * n.engagement;
    var totalWeight := weights.subscribers + weights.totalViews + weights.engagement;
    assert rawScore == WeightedSum(weights, n) && totalWeight == TotalWeight(weights);
    rawScore := rawScore * modifier;
    var averageScore := Min(rawScore / totalWeight, 1.0);
    score := 10.0 - averageScore * 10.0;
  }

  /** The score the scorer returns. A strong channel scores low. */
  function ChannelScore(metrics: ChannelMetrics, normalization: NormalizationFactors,
                        weights: Weights, ln: real -> real): real
    requires IsLog(ln) && Scorable(metrics, normalization) && metrics.viewsPerVideo > -1.0
    requires TotalWeight(weights) != 0.0
  {
    ScoreFor(WeightedSum(weights, Normalize(metrics, normalization, ln)),
             Modifier(metrics, normalization), TotalWeight(weights))
  }

  /** The score is never negative, and with non-negative metrics and weights
      of positive total it is at most 10. */
  lemma ChannelScoreBounds(metrics: ChannelMetrics, normalization: NormalizationFactors,
                           weights: Weights, ln: real -> real)
    requires IsLog(ln) && Scorable(metrics, normalization) && metrics.viewsPerVideo > -1.0
    requires TotalWeight(weights) != 0.0
    ensures ChannelScore(metrics, normalization, weights, ln) >= 0.0
    ensures NonNegative(metrics, weights) && TotalWeight(weights) > 0.0
            ==> ChannelScore(metrics, normalization, weights, ln) <= 10.0
  {
    var n := Normalize(metrics, normalization, ln);
    ScoreForBounds(WeightedSum(weights, n), Modifier(metrics, normalization), TotalWeight(weights));
    if NonNegative(metrics, weights) && TotalWeight(weights) > 0.0 {
      ModifierBounds(metrics, normalization);
      WeightedSumBounds(weights, n);
    }
  }

  /** A channel at or above every reference, with at least half as many
      views per video as subscribers, gets the best score, 0. */
  lemma FullyCappedScoresZero(metrics: ChannelMetrics, normalization: NormalizationFactors,
                              weights: Weights, ln: real -> real)
    requires IsLog(ln) && Scorable(metrics, normalization)
    requires metrics.subscribers >= normalization.maxSubscribers
    requires metrics.viewsPerVideo >= normalization.maxViewsPerVideo
    requires metrics.engagementRatio >= normalization.maxEngagementRatio
    requires 2.0 * metrics.viewsPerVideo >= metrics.subscribers
    requires NonNegative(metrics, weights) && TotalWeight(weights) > 0.0
    ensures ChannelScore(metrics, normalization, weights, ln) == 0.0
  {
    var n := Normalize(metrics, normalization, ln);
    WeightedSumAtCap(weights, n);
    ModifierBounds(metrics, normalization);
    ScoreForBounds(WeightedSum(weights, n), Modifier(metrics, normalization), TotalWeight(weights));
  }

  /** The source's straight-line scorer: the modifier, the normalised
      metrics, their weighted sum scaled by the modifier, and the capped
      average turned into a score. */
  method GetCreditScore(metrics: ChannelMetrics, normalization: NormalizationFactors,
                        weights: Weights, ln: real -> real) returns (score: real)
    requires IsLog(ln) && Scorable(metrics, normalization) && metrics.viewsPerVideo > -1.0
    requires TotalWeight(weights) != 0.0
    ensures score == ChannelScore(metrics, normalization, weights, ln)
    ensures 0.0 <= score
    ensures NonNegative(metrics, weights) && TotalWeight(weights) > 0.0 ==> score <= 10.0
  {
    var modifier := ComputeModifier(metrics, normalization);

    var normSubscribers := NormalizeLog(metrics.subscribers, normalization.maxSubscribers, ln);
    var normViewsPerVideo := NormalizeLog(metrics.viewsPerVideo, normalization.maxViewsPerVideo, ln);
    var normEngagement := Min(metrics.engagementRatio / normalization.maxEngagementRatio, 1.0);
    var normalized := Normalized(normSubscribers, normViewsPerVideo, normEngagement);
    assert normalized == Normalize(metrics, normalization, ln);
    score := ComputeScore(normalized, modifier, weights);
    ChannelScoreBounds(metrics, normalization, weights, ln);
  }
}
