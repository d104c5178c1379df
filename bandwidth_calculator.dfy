/**
 * The bandwidth estimator of js/utils/bandwidth-calculator.js: a sliding
 * time window of throughput samples plus a fast and a slow exponentially
 * weighted moving average, combined into a conservative estimate.
 */
module BandwidthEstimation {
  import opened Wrappers
  import opened BoundedHistory

  /** A throughput observation in bits per second, stamped in milliseconds. */
  datatype Sample = Sample(bandwidth: real, timestamp: int)

  /** The options object passed to the constructor; `None` is an absent key. */
  datatype EstimatorOptions = EstimatorOptions(
    windowSize: Option<int>,
    minSamples: Option<int>,
    ewmaFastAlpha: Option<real>,
    ewmaSlowAlpha: Option<real>,
    safetyFactor: Option<real>)

  datatype EstimatorConfig = EstimatorConfig(
    windowSize: int,
    minSamples: int,
    ewmaFastAlpha: real,
    ewmaSlowAlpha: real,
    safetyFactor: real)

  const DefaultEstimatorConfig := EstimatorConfig(3000, 3, 0.3, 0.1, 0.7)

  /** The configuration built by the constructor, each key defaulted with `||`. */
  function ResolveEstimatorConfig(options: EstimatorOptions): (c: EstimatorConfig)
    ensures options == EstimatorOptions(None, None, None, None, None) ==> c == DefaultEstimatorConfig
    ensures c.windowSize != 0 && c.minSamples != 0
    ensures c.ewmaFastAlpha != 0.0 && c.ewmaSlowAlpha != 0.0 && c.safetyFactor != 0.0
  {
    EstimatorConfig(
      IntOr(options.windowSize, DefaultEstimatorConfig.windowSize),
      IntOr(options.minSamples, DefaultEstimatorConfig.minSamples),
      RealOr(options.ewmaFastAlpha, DefaultEstimatorConfig.ewmaFastAlpha),
      RealOr(options.ewmaSlowAlpha, DefaultEstimatorConfig.ewmaSlowAlpha),
      RealOr(options.safetyFactor, DefaultEstimatorConfig.safetyFactor))
  }

  /** `downloadedBytes * 8 / (durationMs / 1000)`: bits per second over the download. */
  function Throughput(downloadedBytes: int, durationMs: real): (bps: real)
    requires durationMs > 0.0
    ensures bps * durationMs == downloadedBytes as real * 8000.0
    ensures downloadedBytes >= 0 ==> bps >= 0.0
  {
    (downloadedBytes as real * 8.0) / (durationMs / 1000.0)
  }

  /** A factor in [0, 1] scales a difference towards zero, never past it. */
  lemma ScaleWithin(k: real, d: real)
    requires 0.0 <= k <= 1.0
    ensures d >= 0.0 ==> 0.0 <= k * d <= d
    ensures d <= 0.0 ==> d <= k * d <= 0.0
  {
    if d >= 0.0 {
      assert d - k * d == (1.0 - k) * d;
    } else {
      assert k * d - d == (1.0 - k) * (-d);
    }
  }

  /** `ScaleWithin` for a non-negative value, with the factor on the right. */
  lemma ScaleBelow(d: real, k: real)
    requires 0.0 <= k <= 1.0 && d >= 0.0
    ensures 0.0 <= d * k <= d
  {
    assert d - d * k == d * (1.0 - k);
    MulNonnegative(d, 1.0 - k);
  }

  lemma MulNonnegative(x: real, y: real)
    requires x >= 0.0 && y >= 0.0
    ensures x * y >= 0.0
  {
  }

  /** calculateEWMA: `alpha * newValue + (1 - alpha) * oldValue`. */
  function Ewma(newValue: real, oldValue: real, alpha: real): (r: real)
    ensures r - oldValue == alpha * (newValue - oldValue)
  {
    alpha * newValue + (1.0 - alpha) * oldValue
  }

  /** With a coefficient in [0, 1] the average moves towards the new sample and never overshoots it. */
  lemma EwmaBetween(newValue: real, oldValue: real, alpha: real)
    requires 0.0 <= alpha <= 1.0
    ensures oldValue <= newValue ==> oldValue <= Ewma(newValue, oldValue, alpha) <= newValue
    ensures newValue <= oldValue ==> newValue <= Ewma(newValue, oldValue, alpha) <= oldValue
  {
    var d := newValue - oldValue;
    ScaleWithin(alpha, d);
    assert Ewma(newValue, oldValue, alpha) == oldValue + alpha * d;
  }

  /**
   * From the same starting value, the average with the larger coefficient
   * lands between the slower one and the new sample: the fast average
   * reacts first, in either direction.
   */
  lemma FasterAlphaTracksCloser(newValue: real, oldValue: real, slow: real, fast: real)
    requires 0.0 <= slow <= fast <= 1.0
    ensures oldValue <= newValue ==>
              Ewma(newValue, oldValue, slow) <= Ewma(newValue, oldValue, fast) <= newValue
    ensures newValue <= oldValue ==>
              newValue <= Ewma(newValue, oldValue, fast) <= Ewma(newValue, oldValue, slow)
  {
    var d := newValue - oldValue;
    var f := Ewma(newValue, oldValue, fast);
    var s := Ewma(newValue, oldValue, slow);
    assert f - s == fast * d - slow * d;
    assert fast * d - slow * d == (fast - slow) * d;
    EwmaBetween(newValue, oldValue, fast);
    if d >= 0.0 {
      MulNonnegative(fast - slow, d);
    } else {
      MulNonnegative(fast - slow, -d);
      assert (fast - slow) * (-d) == -((fast - slow) * d);
    }
  }

  /** cleanupOldSamples' filter: the samples stamped at or after `windowStart`, in order. */
  function Prune(samples: seq<Sample>, windowStart: int): (r: seq<Sample>)
    ensures |r| <= |samples|
    ensures forall x :: x in r ==> x in samples && x.timestamp >= windowStart
    ensures forall x :: x in samples && x.timestamp >= windowStart ==> x in r
  {
    if samples == [] then []
    else
      var rest := Prune(samples[1..], windowStart);
      assert forall x :: x in samples ==> x == samples[0] || x in samples[1..];
      if samples[0].timestamp >= windowStart then [samples[0]] + rest else rest
  }

  /**
   * Pruning commutes with appending: a newly pushed sample that is inside the
   * window ends the pruned list, after the older survivors in their order.
   */
  lemma {:induction false} PruneAppend(samples: seq<Sample>, x: Sample, windowStart: int)
    ensures Prune(samples + [x], windowStart) ==
              Prune(samples, windowStart) + (if x.timestamp >= windowStart then [x] else [])
    decreases |samples|
  {
    if samples == [] {
      assert [] + [x] == [x];
      assert [x][1..] == [];
    } else {
      assert (samples + [x])[0] == samples[0];
      assert (samples + [x])[1..] == samples[1..] + [x];
      PruneAppend(samples[1..], x, windowStart);
    }
  }

  function Bandwidths(samples: seq<Sample>): (r: seq<real>)
    ensures |r| == |samples| && forall i :: 0 <= i < |samples| ==> r[i] == samples[i].bandwidth
  {
    seq(|samples|, i requires 0 <= i < |samples| => samples[i].bandwidth)
  }

  /** `reduce((a, b) => a + Math.pow(b - mean, 2), 0)` */
  function SquaredDeviations(values: seq<real>, mean: real): (r: real)
    ensures r >= 0.0
  {
    if values == [] then 0.0
    else
      var d := values[0] - mean;
      d * d + SquaredDeviations(values[1..], mean)
  }

  /**
   * The square of calculateStandardDeviation: the sample variance with the
   * n - 1 divisor, 0 for fewer than two values.
   */
  function SampleVariance(values: seq<real>): (r: real)
    ensures |values| < 2 ==> r == 0.0
    ensures r >= 0.0
  {
    var n := |values|;
    if n < 2 then 0.0
    else SquaredDeviations(values, Sum(values) / n as real) / (n - 1) as real
  }

  lemma {:induction false} NoDeviationFromConstant(values: seq<real>, c: real)
    requires forall i :: 0 <= i < |values| ==> values[i] == c
    ensures SquaredDeviations(values, c) == 0.0
    decreases |values|
  {
    if values != [] {
      NoDeviationFromConstant(values[1..], c);
    }
  }

  /** Identical throughputs have no spread. */
  lemma ConstantSamplesHaveNoVariance(values: seq<real>, c: real)
    requires forall i :: 0 <= i < |values| ==> values[i] == c
    ensures SampleVariance(values) == 0.0
  {
    if |values| >= 2 {
      MeanOfConstant(values, c);
      NoDeviationFromConstant(values, c);
    }
  }

  /** A squared deviation of one value is a lower bound of the whole sum. */
  lemma {:induction false} DeviationAtMost(values: seq<real>, mean: real, k: int)
    requires 0 <= k < |values|
    ensures (values[k] - mean) * (values[k] - mean) <= SquaredDeviations(values, mean)
    decreases |values|
  {
    var d := values[0] - mean;
    assert d * d >= 0.0;
    assert SquaredDeviations(values, mean) == d * d + SquaredDeviations(values[1..], mean);
    if k > 0 {
      assert values[1..][k - 1] == values[k];
      DeviationAtMost(values[1..], mean, k - 1);
    }
  }

  /** Two different throughputs in the window give a positive variance. */
  lemma DifferentSamplesHaveVariance(values: seq<real>, i: int, j: int)
    requires 0 <= i < |values| && 0 <= j < |values| && values[i] != values[j]
    ensures SampleVariance(values) > 0.0
  {
    var n := |values|;
    var mean := Sum(values) / n as real;
    var k := if values[i] != mean then i else j;
    var d := values[k] - mean;
    assert d != 0.0;
    DeviationAtMost(values, mean, k);
    var total := SquaredDeviations(values, mean);
    BoundedBySquareIsPositive(d, total);
    assert i != j && n >= 2;
    PositiveQuotient(total, (n - 1) as real);
  }

  /** A total at least the square of a non-zero deviation is positive. */
  lemma BoundedBySquareIsPositive(d: real, total: real)
    requires d != 0.0 && d * d <= total
    ensures total > 0.0
  {
    SquarePositive(d);
    calc {
      total;
    >=
      d * d;
    >
      0.0;
    }
  }

  lemma SquarePositive(d: real)
    requires d != 0.0
    ensures d * d > 0.0
  {
    if d < 0.0 {
      assert d * d == (-d) * (-d);
    }
  }

  /** A positive total divided by a positive count is positive. */
  lemma PositiveQuotient(a: real, b: real)
    requires a > 0.0 && b > 0.0
    ensures a / b > 0.0
  {
    assert a / b * b == a;
  }

  /** `stdDev` is `Math.sqrt(variance)`. */
  predicate IsSqrt(variance: real, stdDev: real) {
    stdDev >= 0.0 && stdDev * stdDev == variance
  }

  /**
   * The extra shrink of getEffectiveBandwidth: none up to a variability of
   * 0.2, otherwise `1 - min(variability, 0.5)`.
   */
  function VariabilityFactor(variability: real): (k: real)
    ensures 0.5 <= k <= 1.0
    ensures variability <= 0.2 ==> k == 1.0
    ensures variability >= 0.5 ==> k == 0.5
  {
    if variability > 0.2 then 1.0 - (if variability < 0.5 then variability else 0.5) else 1.0
  }

  /** A larger variability never gives a larger factor: the damping only grows with the spread. */
  lemma VariabilityFactorMonotone(low: real, high: real)
    requires low <= high
    ensures VariabilityFactor(high) <= VariabilityFactor(low)
  {
  }

  /** Options the estimator's arithmetic expects: both coefficients and the safety factor in [0, 1]. */
  predicate ConfigInRange(c: EstimatorConfig) {
    0.0 <= c.ewmaFastAlpha <= 1.0 && 0.0 <= c.ewmaSlowAlpha <= 1.0 && 0.0 <= c.safetyFactor <= 1.0
  }

  class BandwidthCalculator {
    const config: EstimatorConfig
    var samples: seq<Sample>
    var ewmaFast: real
    var ewmaSlow: real
    var lastSampleTime: int

    /**
     * With coefficients and safety factor in [0, 1], every throughput and
     * both averages are non-negative.
     */
    ghost predicate Valid()
      reads this
    {
      ConfigInRange(config) && ewmaFast >= 0.0 && ewmaSlow >= 0.0 &&
      forall x :: x in samples ==> x.bandwidth >= 0.0
    }

    constructor (options: EstimatorOptions)
      ensures config == ResolveEstimatorConfig(options)
      ensures samples == [] && ewmaFast == 0.0 && ewmaSlow == 0.0 && lastSampleTime == 0
      ensures ConfigInRange(config) ==> Valid()
    {
      config := ResolveEstimatorConfig(options);
      samples := [];
      ewmaFast := 0.0;
      ewmaSlow := 0.0;
      lastSampleTime := 0;
    }

    /**
     * addSample(downloadedBytes, durationMs, timestamp). The source divides by
     * `durationMs` unchecked, so a positive duration is required here.
     */
    method AddSample(downloadedBytes: int, durationMs: real, timestamp: int) returns (estimate: real)
      requires durationMs > 0.0
      modifies this
      ensures var added := Sample(Throughput(downloadedBytes, durationMs), timestamp);
              samples == Prune(old(samples), timestamp - config.windowSize) +
                         (if config.windowSize >= 0 then [added] else [])
      ensures forall x :: x in samples ==> x.timestamp >= timestamp - config.windowSize
      ensures old(ewmaFast) == 0.0 ==>
                ewmaFast == Throughput(downloadedBytes, durationMs) && ewmaSlow == Throughput(downloadedBytes, durationMs)
      ensures old(ewmaFast) != 0.0 ==>
                && ewmaFast == Ewma(Throughput(downloadedBytes, durationMs), old(ewmaFast), config.ewmaFastAlpha)
                && ewmaSlow == Ewma(Throughput(downloadedBytes, durationMs), old(ewmaSlow), config.ewmaSlowAlpha)
      ensures lastSampleTime == timestamp
      ensures estimate == CurrentEstimate()
      ensures old(Valid()) && downloadedBytes >= 0 ==> Valid()
    {
      ghost var wasValid := Valid();
      var bandwidthBps := Throughput(downloadedBytes, durationMs);
      var added := Sample(bandwidthBps, timestamp);
      ghost var before := samples;
      samples := samples + [added];
      CleanupOldSamples(timestamp);
      PruneAppend(before, added, timestamp - config.windowSize);
      if ewmaFast == 0.0 {
        ewmaFast := bandwidthBps;
        ewmaSlow := bandwidthBps;
      } else {
        if wasValid && downloadedBytes >= 0 {
          EwmaBetween(bandwidthBps, ewmaFast, config.ewmaFastAlpha);
          EwmaBetween(bandwidthBps, ewmaSlow, config.ewmaSlowAlpha);
        }
        ewmaFast := Ewma(bandwidthBps, ewmaFast, config.ewmaFastAlpha);
        ewmaSlow := Ewma(bandwidthBps, ewmaSlow, config.ewmaSlowAlpha);
      }
      lastSampleTime := timestamp;
      estimate := CurrentEstimate();
    }

    /** cleanupOldSamples(currentTime): keep the samples no older than `windowSize`. */
    method CleanupOldSamples(currentTime: int)
      modifies this
      ensures samples == Prune(old(samples), currentTime - config.windowSize)
      ensures ewmaFast == old(ewmaFast) && ewmaSlow == old(ewmaSlow) && lastSampleTime == old(lastSampleTime)
    {
      samples := Prune(samples, currentTime - config.windowSize);
    }

    /**
     * getCurrentEstimate: 0 ("not enough data") below `minSamples` samples,
     * otherwise the lower of the two averages scaled by `safetyFactor`.
     */
    function CurrentEstimate(): (r: real)
      reads this
      ensures |samples| < config.minSamples ==> r == 0.0
      ensures |samples| >= config.minSamples ==>
                r == ewmaFast * config.safetyFactor || r == ewmaSlow * config.safetyFactor
      ensures |samples| >= config.minSamples && config.safetyFactor >= 0.0 ==>
                r <= ewmaFast * config.safetyFactor && r <= ewmaSlow * config.safetyFactor
    {
      if |samples| < config.minSamples then 0.0
      else
        var baseEstimate := if ewmaFast <= ewmaSlow then ewmaFast else ewmaSlow;
        baseEstimate * config.safetyFactor
    }

    /**
     * getEffectiveBandwidth, with `stdDev` the square root of the window's
     * sample variance: the estimate damped by the variability of the window.
     */
    function EffectiveBandwidth(stdDev: real): (r: real)
      reads this
      requires IsSqrt(SampleVariance(Bandwidths(samples)), stdDev)
      ensures CurrentEstimate() == 0.0 ==> r == 0.0
      ensures CurrentEstimate() >= 0.0 && config.safetyFactor >= 0.0 ==>
                0.5 * (CurrentEstimate() * config.safetyFactor) <= r <= CurrentEstimate() * config.safetyFactor
    {
      var estimate := CurrentEstimate();
      var safetyFactor := config.safetyFactor;
      Damped(estimate, safetyFactor, stdDev)
    }

    /** reset: back to the freshly constructed state. */
    method Reset()
      modifies this
      ensures samples == [] && ewmaFast == 0.0 && ewmaSlow == 0.0 && lastSampleTime == 0
      ensures ConfigInRange(config) ==> Valid()
    {
      samples := [];
      ewmaFast := 0.0;
      ewmaSlow := 0.0;
      lastSampleTime := 0;
    }
  }

  /**
   * The body of getEffectiveBandwidth: 0 for a zero estimate, otherwise the
   * already scaled estimate is multiplied by `safetyFactor` a second time and
   * by the variability factor of `stdDev / estimate`. The damping removes at
   * most half of the scaled estimate and never adds to it; a spread of at
   * most 20% of the estimate leaves it undamped, a spread of half the
   * estimate or more halves it.
   */
  function Damped(estimate: real, safetyFactor: real, stdDev: real): (r: real)
    ensures estimate == 0.0 ==> r == 0.0
    ensures estimate != 0.0 ==> r == estimate * safetyFactor * VariabilityFactor(stdDev / estimate)
    ensures estimate >= 0.0 && safetyFactor >= 0.0 ==>
              0.5 * (estimate * safetyFactor) <= r <= estimate * safetyFactor
    ensures estimate > 0.0 && stdDev <= 0.2 * estimate ==> r == estimate * safetyFactor
    ensures estimate > 0.0 && stdDev >= 0.5 * estimate ==> r == 0.5 * (estimate * safetyFactor)
  {
    if estimate == 0.0 then 0.0
    else
      var variability := stdDev / estimate;
      var dynamicSafetyFactor := safetyFactor * VariabilityFactor(variability);
      assert estimate * dynamicSafetyFactor == estimate * safetyFactor * VariabilityFactor(variability);
      if estimate > 0.0 then
        RatioAgainst(stdDev, estimate, 0.2);
        RatioAgainst(stdDev, estimate, 0.5);
        if safetyFactor >= 0.0 then
          ScaledBetween(estimate * safetyFactor, VariabilityFactor(variability));
          estimate * dynamicSafetyFactor
        else
          estimate * dynamicSafetyFactor
      else
        estimate * dynamicSafetyFactor
  }

  /** A non-negative value scaled by a factor in [0.5, 1] keeps at least half of itself. */
  lemma ScaledBetween(x: real, k: real)
    requires x >= 0.0 && 0.5 <= k <= 1.0
    ensures 0.5 * x <= x * k <= x
  {
    MulNonnegative(x, k - 0.5);
    MulNonnegative(x, 1.0 - k);
    assert x * k - 0.5 * x == x * (k - 0.5);
    assert x - x * k == x * (1.0 - k);
  }

  /** Comparing `s / e` with a threshold is comparing `s` with the threshold times `e`. */
  lemma RatioAgainst(s: real, e: real, t: real)
    requires e > 0.0
    ensures s <= t * e ==> s / e <= t
    ensures s >= t * e ==> s / e >= t
  {
    assert s / e * e == s;
    if s / e > t {
      assert (s / e - t) * e > 0.0;
    }
    if s / e < t {
      assert (t - s / e) * e > 0.0;
    }
  }

  /**
   * More spread never means more bandwidth: for a positive estimate and a
   * non-negative safety factor, a larger standard deviation gives a damped
   * value no larger than a smaller one.
   */
  lemma MoreSpreadMoreDamping(estimate: real, safetyFactor: real, low: real, high: real)
    requires estimate > 0.0 && safetyFactor >= 0.0 && low <= high
    ensures Damped(estimate, safetyFactor, high) <= Damped(estimate, safetyFactor, low)
  {
    var x := estimate * safetyFactor;
    MulNonnegative(estimate, safetyFactor);
    RatioMonotone(low, high, estimate);
    VariabilityFactorMonotone(low / estimate, high / estimate);
    var kl := VariabilityFactor(low / estimate);
    var kh := VariabilityFactor(high / estimate);
    MulNonnegative(x, kl - kh);
    assert x * kl - x * kh == x * (kl - kh);
  }

  /** Dividing by a positive value keeps the order. */
  lemma RatioMonotone(a: real, b: real, e: real)
    requires e > 0.0 && a <= b
    ensures a / e <= b / e
  {
    assert b / e - a / e == (b - a) / e;
  }

  /**
   * The estimate never exceeds either average: with a safety factor in
   * [0, 1] and non-negative averages, estimate <= min(ewmaFast, ewmaSlow).
   */
  lemma EstimateBelowAverages(b: BandwidthCalculator)
    requires b.Valid()
    ensures 0.0 <= b.CurrentEstimate() <= b.ewmaFast && b.CurrentEstimate() <= b.ewmaSlow
  {
    EstimateBound(b.CurrentEstimate(), b.ewmaFast, b.ewmaSlow, b.config.safetyFactor);
  }

  /** A choice between two non-negative values, each scaled into [0, 1] of itself, is below both. */
  lemma EstimateBound(r: real, fast: real, slow: real, sf: real)
    requires 0.0 <= sf <= 1.0 && fast >= 0.0 && slow >= 0.0
    requires r == 0.0 || r == fast * sf || r == slow * sf
    requires r == 0.0 || (r <= fast * sf && r <= slow * sf)
    ensures 0.0 <= r <= fast && r <= slow
  {
    ScaleBelow(fast, sf);
    ScaleBelow(slow, sf);
  }

  /**
   * Monotonic conservatism, the second half: with a safety factor in [0, 1]
   * and non-negative averages, effective bandwidth <= estimate (the first
   * half is `EstimateBelowAverages`).
   */
  lemma Conservative(b: BandwidthCalculator, stdDev: real)
    requires IsSqrt(SampleVariance(Bandwidths(b.samples)), stdDev)
    requires b.Valid()
    ensures b.EffectiveBandwidth(stdDev) <= b.CurrentEstimate()
  {
    EstimateBelowAverages(b);
    DampedBelowEstimate(b.CurrentEstimate(), b.config.safetyFactor, stdDev);
  }

  /** With a factor in [0, 1], the damped value of a non-negative estimate does not exceed it. */
  lemma DampedBelowEstimate(estimate: real, safetyFactor: real, stdDev: real)
    requires 0.0 <= safetyFactor <= 1.0 && estimate >= 0.0
    ensures Damped(estimate, safetyFactor, stdDev) <= estimate
  {
    BelowScaled(Damped(estimate, safetyFactor, stdDev), estimate, safetyFactor);
  }

  /** A value below a non-negative value scaled by a factor in [0, 1] is below the value itself. */
  lemma BelowScaled(r: real, e: real, k: real)
    requires r <= e * k && 0.0 <= k <= 1.0 && e >= 0.0
    ensures r <= e
  {
    ScaleBelow(e, k);
  }

  /**
   * Three 5,000,000 bit/s downloads half a second apart with the default
   * configuration give an estimate of 3,500,000 bit/s.
   */
  method SteadyDownloadsScenario() returns (estimate: real)
    ensures estimate == 3500000.0
  {
    var calculator := new BandwidthCalculator(EstimatorOptions(None, None, None, None, None));
    assert Throughput(312500, 500.0) == 5000000.0;
    var e1 := calculator.AddSample(312500, 500.0, 0);
    assert e1 == 0.0;
    var e2 := calculator.AddSample(312500, 500.0, 500);
    var e3 := calculator.AddSample(312500, 500.0, 1000);
    assert |calculator.samples| == 3;
    assert e3 == 3500000.0;
    estimate := e3;
  }
}
