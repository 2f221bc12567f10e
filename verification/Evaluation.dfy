/**
  Calibration error and the Pareto frontier (src/behavior_lab/evaluation.py,
  lines 40-57 and 178-193).  Probabilities are reals; rounding is not modelled.
*/
module Evaluation {

  // ---------------------------------------------------------------- calibration error

  function Abs(x: real): real { if x < 0.0 then -x else x }

  /** Bucket `b` of `bins`: half open, the last one closed at 1. */
  predicate InBucket(p: real, b: nat, bins: nat)
    requires b < bins
  {
    (b as real / bins as real <= p < (b + 1) as real / bins as real) || (b == bins - 1 && p == 1.0)
  }

  function CountIn(predictions: seq<real>, b: nat, bins: nat): nat
    requires b < bins
  {
    if predictions == [] then 0
    else
      var n := |predictions| - 1;
      CountIn(predictions[..n], b, bins) + if InBucket(predictions[n], b, bins) then 1 else 0
  }

  /** The sum of `values` over the cases whose prediction falls into the bucket. */
  function SumIn(predictions: seq<real>, values: seq<real>, b: nat, bins: nat): real
    requires b < bins && |predictions| <= |values|
  {
    if predictions == [] then 0.0
    else
      var n := |predictions| - 1;
      SumIn(predictions[..n], values, b, bins) + if InBucket(predictions[n], b, bins) then values[n] else 0.0
  }

  /** What one bucket adds to the error. */
  function Share(predictions: seq<real>, targets: seq<real>, b: nat, bins: nat): real
    requires b < bins && 0 < |predictions| <= |targets|
  {
    var count := CountIn(predictions, b, bins);
    if count == 0 then 0.0
    else
      (count as real / |predictions| as real) *
      Abs(SumIn(predictions, predictions, b, bins) / count as real -
          SumIn(predictions, targets, b, bins) / count as real)
  }

  function Shares(predictions: seq<real>, targets: seq<real>, upTo: nat, bins: nat): real
    requires upTo <= bins && 0 < |predictions| <= |targets|
  {
    if upTo == 0 then 0.0
    else Shares(predictions, targets, upTo - 1, bins) + Share(predictions, targets, upTo - 1, bins)
  }

  function Error(predictions: seq<real>, targets: seq<real>, bins: nat): real
    requires |predictions| <= |targets|
  {
    if predictions == [] then 0.0 else Shares(predictions, targets, bins, bins)
  }

  method CalibrationError(predictions: seq<real>, targets: seq<real>, bins: nat) returns (total: real)
    requires |predictions| <= |targets|
    ensures total == Error(predictions, targets, bins)
  {
    if predictions == [] {
      return 0.0;
    }
    total := 0.0;
    var bucket := 0;
    while bucket < bins
      invariant 0 <= bucket <= bins
      invariant total == Shares(predictions, targets, bucket, bins)
    {
      var count, predicted, observed := 0, 0.0, 0.0;
      var i := 0;
      while i < |predictions|
        invariant 0 <= i <= |predictions|
        invariant count == CountIn(predictions[..i], bucket, bins)
        invariant predicted == SumIn(predictions[..i], predictions, bucket, bins)
        invariant observed == SumIn(predictions[..i], targets, bucket, bins)
      {
        assert predictions[..i + 1][..i] == predictions[..i];
        if InBucket(predictions[i], bucket, bins) {
          count := count + 1;
          predicted := predicted + predictions[i];
          observed := observed + targets[i];
        }
        i := i + 1;
      }
      assert predictions[..i] == predictions;
      bucket := bucket + 1;
      if count == 0 {
        continue;
      }
      var avgPrediction := predicted / count as real;
      var avgTarget := observed / count as real;
      total := total + (count as real / |predictions| as real) * Abs(avgPrediction - avgTarget);
    }
  }

  // ---------------------------------------------------------------- its bounds

  predicate Probabilities(predictions: seq<real>) {
    forall i :: 0 <= i < |predictions| ==> 0.0 <= predictions[i] <= 1.0
  }

  /** The bucket a probability falls into. */
  function Home(p: real, bins: nat): (b: nat)
    requires bins > 0 && 0.0 <= p <= 1.0
    ensures b < bins
  {
    if p == 1.0 then bins - 1
    else
      BelowBins(p, bins);
      (p * bins as real).Floor
  }

  lemma BelowBins(p: real, bins: nat)
    requires bins > 0 && 0.0 <= p < 1.0
    ensures 0 <= (p * bins as real).Floor < bins
  {
    assert (1.0 - p) * bins as real > 0.0;
  }

  lemma BucketBounds(p: real, b: nat, bins: nat)
    requires b < bins
    ensures b as real / bins as real <= p <==> b as real <= p * bins as real
    ensures p < (b + 1) as real / bins as real <==> p * bins as real < (b + 1) as real
  {
    var n := bins as real;
    assert (b as real / n) * n == b as real && ((b + 1) as real / n) * n == (b + 1) as real;
    if b as real / n <= p { Scale(b as real / n, p, n); } else { StrictScale(p, b as real / n, n); }
    if p < (b + 1) as real / n { StrictScale(p, (b + 1) as real / n, n); } else { Scale((b + 1) as real / n, p, n); }
  }

  lemma Scale(x: real, y: real, n: real)
    requires x <= y && n > 0.0
    ensures x * n <= y * n
  {
    assert (y - x) * n >= 0.0;
  }

  lemma StrictScale(x: real, y: real, n: real)
    requires x < y && n > 0.0
    ensures x * n < y * n
  {
    assert (y - x) * n > 0.0;
  }

  /** The buckets partition the probabilities. */
  lemma OneBucketEach(p: real, b: nat, bins: nat)
    requires b < bins && 0.0 <= p <= 1.0
    ensures InBucket(p, b, bins) <==> b == Home(p, bins)
  {
    BucketBounds(p, b, bins);
    if p == 1.0 {
      assert p * bins as real == bins as real;
    } else {
      BelowBins(p, bins);
    }
  }

  lemma {:induction false} CountAndSums(predictions: seq<real>, values: seq<real>, b: nat, bins: nat)
    requires b < bins && |predictions| <= |values|
    ensures CountIn(predictions, b, bins) == 0 ==> SumIn(predictions, values, b, bins) == 0.0
  {
    if predictions != [] {
      CountAndSums(predictions[..|predictions|-1], values, b, bins);
    }
  }

  /** A bucket's share is the distance between its sums, over the number of all cases. */
  lemma ShareIsGap(predictions: seq<real>, targets: seq<real>, b: nat, bins: nat)
    requires b < bins && 0 < |predictions| <= |targets|
    ensures Share(predictions, targets, b, bins) ==
            Abs(SumIn(predictions, predictions, b, bins) - SumIn(predictions, targets, b, bins)) / |predictions| as real
  {
    hide CountIn, SumIn, Abs;
    CountAndSums(predictions, predictions, b, bins);
    CountAndSums(predictions, targets, b, bins);
    AbsZero();
    var count := CountIn(predictions, b, bins);
    if count > 0 {
      Weighted(count as real, |predictions| as real,
               SumIn(predictions, predictions, b, bins), SumIn(predictions, targets, b, bins));
    }
  }

  lemma AbsZero()
    ensures Abs(0.0) == 0.0
  {
  }

  lemma Weighted(count: real, n: real, p: real, t: real)
    requires count > 0.0 && n > 0.0
    ensures (count / n) * Abs(p / count - t / count) == Abs(p - t) / n
  {
    var d := p / count - t / count;
    assert d * count == p - t;
    assert Abs(d) * count == Abs(d * count) by {
      if d >= 0.0 {
        assert d * count >= 0.0;
      } else {
        assert -d * count > 0.0;
      }
    }
    calc {
      (count / n) * Abs(d);
      (count * Abs(d)) / n;
      Abs(p - t) / n;
    }
  }

  /** Sums over the first `upTo` buckets of a bucket's value. */
  function OverBuckets(f: nat -> real, upTo: nat): real {
    if upTo == 0 then 0.0 else OverBuckets(f, upTo - 1) + f(upTo - 1)
  }

  lemma {:induction false} OverBucketsAdd(f: nat -> real, g: nat -> real, h: nat -> real, upTo: nat)
    requires forall b :: 0 <= b < upTo ==> h(b) == f(b) + g(b)
    ensures OverBuckets(h, upTo) == OverBuckets(f, upTo) + OverBuckets(g, upTo)
  {
    if upTo > 0 { OverBucketsAdd(f, g, h, upTo - 1); }
  }

  lemma {:induction false} OverBucketsLe(f: nat -> real, g: nat -> real, upTo: nat)
    requires forall b :: 0 <= b < upTo ==> f(b) <= g(b)
    ensures OverBuckets(f, upTo) <= OverBuckets(g, upTo)
  {
    if upTo > 0 { OverBucketsLe(f, g, upTo - 1); }
  }

  lemma {:induction false} OverBucketsAbs(f: nat -> real, g: nat -> real, upTo: nat)
    requires forall b :: 0 <= b < upTo ==> g(b) == Abs(f(b))
    ensures Abs(OverBuckets(f, upTo)) <= OverBuckets(g, upTo)
  {
    if upTo > 0 { OverBucketsAbs(f, g, upTo - 1); }
  }

  lemma {:induction false} OverBucketsPoint(f: nat -> real, home: nat, x: real, upTo: nat)
    requires forall b :: 0 <= b < upTo ==> f(b) == if b == home then x else 0.0
    ensures OverBuckets(f, upTo) == if home < upTo then x else 0.0
  {
    if upTo > 0 { OverBucketsPoint(f, home, x, upTo - 1); }
  }

  function Sum(values: seq<real>, n: nat): real
    requires n <= |values|
  {
    if n == 0 then 0.0 else Sum(values, n - 1) + values[n - 1]
  }

  function BucketSum(predictions: seq<real>, values: seq<real>, bins: nat): nat -> real
    requires |predictions| <= |values|
  {
    (b: nat) => if b < bins then SumIn(predictions, values, b, bins) else 0.0
  }

  function PointSum(p: real, x: real, bins: nat): nat -> real {
    (b: nat) => if b < bins && InBucket(p, b, bins) then x else 0.0
  }

  /** Summing any values bucket by bucket is summing them all. */
  lemma {:induction false} BucketsPartition(predictions: seq<real>, values: seq<real>, bins: nat)
    requires bins > 0 && |predictions| <= |values| && Probabilities(predictions)
    ensures OverBuckets(BucketSum(predictions, values, bins), bins) == Sum(values, |predictions|)
  {
    hide InBucket, Home;
    var n := |predictions|;
    if n == 0 {
      OverBucketsPoint(BucketSum(predictions, values, bins), 0, 0.0, bins);
    } else {
      var front, p, x := predictions[..n - 1], predictions[n - 1], values[n - 1];
      BucketsPartition(front, values, bins);
      OverBucketsAdd(BucketSum(front, values, bins), PointSum(p, x, bins), BucketSum(predictions, values, bins), bins);
      forall b | 0 <= b < bins ensures PointSum(p, x, bins)(b) == if b == Home(p, bins) then x else 0.0 {
        OneBucketEach(p, b, bins);
      }
      OverBucketsPoint(PointSum(p, x, bins), Home(p, bins), x, bins);
    }
  }

  function Gaps(predictions: seq<real>, targets: seq<real>): (r: seq<real>)
    requires |predictions| <= |targets|
    ensures |r| == |predictions| && forall i :: 0 <= i < |r| ==> r[i] == predictions[i] - targets[i]
  {
    seq(|predictions|, i requires 0 <= i < |predictions| => predictions[i] - targets[i])
  }

  function Sizes(values: seq<real>): (r: seq<real>)
    ensures |r| == |values| && forall i :: 0 <= i < |r| ==> r[i] == Abs(values[i])
  {
    seq(|values|, i requires 0 <= i < |values| => Abs(values[i]))
  }

  lemma {:induction false} GapOfSums(predictions: seq<real>, values: seq<real>, targets: seq<real>,
                                     gaps: seq<real>, b: nat, bins: nat)
    requires b < bins && |predictions| <= |values| && |predictions| <= |targets| && |predictions| <= |gaps|
    requires forall i :: 0 <= i < |predictions| ==> gaps[i] == values[i] - targets[i]
    ensures SumIn(predictions, values, b, bins) - SumIn(predictions, targets, b, bins) ==
      SumIn(predictions, gaps, b, bins)
  {
    hide InBucket;
    if predictions != [] {
      GapOfSums(predictions[..|predictions|-1], values, targets, gaps, b, bins);
    }
  }

  lemma {:induction false} AbsOfSum(predictions: seq<real>, values: seq<real>, sizes: seq<real>, b: nat, bins: nat)
    requires b < bins && |predictions| <= |values| && |predictions| <= |sizes|
    requires forall i :: 0 <= i < |predictions| ==> sizes[i] == Abs(values[i])
    ensures Abs(SumIn(predictions, values, b, bins)) <= SumIn(predictions, sizes, b, bins)
  {
    hide InBucket;
    if predictions != [] {
      AbsOfSum(predictions[..|predictions|-1], values, sizes, b, bins);
    }
  }

  function AbsGap(predictions: seq<real>, targets: seq<real>, bins: nat): nat -> real
    requires |predictions| <= |targets|
  {
    (b: nat) => if b < bins then Abs(SumIn(predictions, Gaps(predictions, targets), b, bins)) else 0.0
  }

  lemma {:induction false} SharesAreGaps(predictions: seq<real>, targets: seq<real>, upTo: nat, bins: nat)
    requires upTo <= bins && 0 < |predictions| <= |targets|
    ensures Shares(predictions, targets, upTo, bins) * |predictions| as real ==
      OverBuckets(AbsGap(predictions, targets, bins), upTo)
  {
    hide Share, SumIn, Abs;
    if upTo > 0 {
      SharesAreGaps(predictions, targets, upTo - 1, bins);
      ShareIsGap(predictions, targets, upTo - 1, bins);
      GapOfSums(predictions, predictions, targets, Gaps(predictions, targets), upTo - 1, bins);
      Distribute(Shares(predictions, targets, upTo - 1, bins),
                 Abs(SumIn(predictions, Gaps(predictions, targets), upTo - 1, bins)), |predictions| as real);
    }
  }

  lemma Distribute(s: real, g: real, n: real)
    requires n > 0.0
    ensures (s + g / n) * n == s * n + g
  {
  }

  /**
    For any number of bins: the error, times the number of cases, lies between the
    sum of the gaps and the sum of their sizes.
  */
  lemma ErrorBounds(predictions: seq<real>, targets: seq<real>, bins: nat)
    requires bins > 0 && |predictions| <= |targets| && Probabilities(predictions)
    ensures var n, gaps := |predictions|, Gaps(predictions, targets);
            Abs(Sum(gaps, n)) <= Error(predictions, targets, bins) * n as real <= Sum(Sizes(gaps), n)
  {
    hide SumIn, Abs;
    var n, gaps := |predictions|, Gaps(predictions, targets);
    var sizes := Sizes(gaps);
    if n > 0 {
      SharesAreGaps(predictions, targets, bins, bins);
      BucketsPartition(predictions, gaps, bins);
      BucketsPartition(predictions, sizes, bins);
      OverBucketsAbs(BucketSum(predictions, gaps, bins), AbsGap(predictions, targets, bins), bins);
      forall b: nat | 0 <= b < bins
        ensures AbsGap(predictions, targets, bins)(b) <= BucketSum(predictions, sizes, bins)(b)
      {
        AbsOfSum(predictions, gaps, sizes, b, bins);
      }
      OverBucketsLe(AbsGap(predictions, targets, bins), BucketSum(predictions, sizes, bins), bins);
    } else {
      NoCases(gaps, sizes);
    }
  }

  lemma NoCases(gaps: seq<real>, sizes: seq<real>)
    ensures Abs(Sum(gaps, 0)) == 0.0 && Sum(sizes, 0) == 0.0
  {
  }

  lemma {:induction false} GapsSum(predictions: seq<real>, targets: seq<real>, n: nat)
    requires n <= |predictions| <= |targets|
    ensures Sum(Gaps(predictions, targets), n) == Sum(predictions, n) - Sum(targets, n)
  {
    if n > 0 {
      GapsSum(predictions, targets, n - 1);
    }
  }

  lemma QuotientTimes(x: real, n: real)
    requires n > 0.0
    ensures (x / n) * n == x
  {
  }

  lemma DivideBelow(low: real, x: real, n: real)
    requires n > 0.0 && low <= x * n
    ensures low / n <= x
  {
    QuotientTimes(low, n);
    if x < low / n {
      StrictScale(x, low / n, n);
    }
  }

  lemma DivideAbove(x: real, high: real, n: real)
    requires n > 0.0 && x * n <= high
    ensures x <= high / n
  {
    QuotientTimes(high, n);
    var above := high / n;
    if above < x {
      StrictScale(above, x, n);
    }
  }

  lemma AbsOfQuotient(p: real, t: real, n: real)
    requires n > 0.0
    ensures Abs(p / n - t / n) == Abs(p - t) / n
  {
    Weighted(n, n, p, t);
    assert n / n == 1.0;
  }

  function Mean(values: seq<real>, n: nat): real
    requires 0 < n <= |values|
  {
    Sum(values, n) / n as real
  }

  /** The error lies between the distance of the means and the mean absolute error. */
  lemma ErrorBetweenMeans(predictions: seq<real>, targets: seq<real>, bins: nat)
    requires bins > 0 && 0 < |predictions| <= |targets| && Probabilities(predictions)
    ensures var n := |predictions|;
            Abs(Mean(predictions, n) - Mean(targets, n)) <= Error(predictions, targets, bins)
            <= Mean(Sizes(Gaps(predictions, targets)), n)
  {
    hide Error, Abs;
    var n, gaps := |predictions|, Gaps(predictions, targets);
    ErrorBounds(predictions, targets, bins);
    GapsSum(predictions, targets, n);
    DivideBelow(Abs(Sum(gaps, n)), Error(predictions, targets, bins), n as real);
    DivideAbove(Error(predictions, targets, bins), Sum(Sizes(gaps), n), n as real);
    AbsOfQuotient(Sum(predictions, n), Sum(targets, n), n as real);
  }

  /** The sum of `values` over the cases whose probability, scaled by the number of bins, rounds down to `b`. */
  function HomeSum(predictions: seq<real>, values: seq<real>, b: nat, bins: nat): real
    requires bins > 0 && |predictions| <= |values| && Probabilities(predictions)
  {
    if predictions == [] then 0.0
    else
      var n := |predictions| - 1;
      HomeSum(predictions[..n], values, b, bins) + if Home(predictions[n], bins) == b then values[n] else 0.0
  }

  lemma {:induction false} HomeSumIsSumIn(predictions: seq<real>, values: seq<real>, b: nat, bins: nat)
    requires b < bins && |predictions| <= |values| && Probabilities(predictions)
    ensures HomeSum(predictions, values, b, bins) == SumIn(predictions, values, b, bins)
  {
    hide InBucket, Home;
    if predictions != [] {
      HomeSumIsSumIn(predictions[..|predictions|-1], values, b, bins);
      OneBucketEach(predictions[|predictions|-1], b, bins);
    }
  }

  function HomeGap(predictions: seq<real>, targets: seq<real>, bins: nat): nat -> real
    requires bins > 0 && |predictions| <= |targets| && Probabilities(predictions)
  {
    (b: nat) => Abs(HomeSum(predictions, Gaps(predictions, targets), b, bins))
  }

  lemma {:induction false} OverBucketsSame(f: nat -> real, g: nat -> real, upTo: nat)
    requires forall b :: 0 <= b < upTo ==> f(b) == g(b)
    ensures OverBuckets(f, upTo) == OverBuckets(g, upTo)
  {
    if upTo > 0 { OverBucketsSame(f, g, upTo - 1); }
  }

  /** The error, times the number of cases, is the sum over all bins of the distance the bin is off in total. */
  lemma ErrorByBins(predictions: seq<real>, targets: seq<real>, bins: nat)
    requires bins > 0 && 0 < |predictions| <= |targets| && Probabilities(predictions)
    ensures Error(predictions, targets, bins) * |predictions| as real ==
      OverBuckets(HomeGap(predictions, targets, bins), bins)
  {
    hide SumIn, HomeSum, Abs, Shares;
    SharesAreGaps(predictions, targets, bins, bins);
    forall b: nat | 0 <= b < bins
      ensures HomeGap(predictions, targets, bins)(b) == AbsGap(predictions, targets, bins)(b)
    {
      HomeSumIsSumIn(predictions, Gaps(predictions, targets), b, bins);
    }
    OverBucketsSame(HomeGap(predictions, targets, bins), AbsGap(predictions, targets, bins), bins);
  }

  lemma {:induction false} OneBinSum(predictions: seq<real>, values: seq<real>)
    requires |predictions| <= |values| && Probabilities(predictions)
    ensures HomeSum(predictions, values, 0, 1) == Sum(values, |predictions|)
  {
    if predictions != [] {
      var n := |predictions| - 1;
      OneBinSum(predictions[..n], values);
      assert Home(predictions[n], 1) == 0;
    }
  }

  /** With one bin the error is the distance of the means. */
  lemma OneBinIsMeanGap(predictions: seq<real>, targets: seq<real>)
    requires 0 < |predictions| <= |targets| && Probabilities(predictions)
    ensures Error(predictions, targets, 1) == Abs(Mean(predictions, |predictions|) - Mean(targets, |predictions|))
  {
    hide Error, HomeSum, Abs;
    var n, gaps := |predictions|, Gaps(predictions, targets);
    ErrorByBins(predictions, targets, 1);
    OneBinSum(predictions, gaps);
    GapsSum(predictions, targets, n);
    var f := HomeGap(predictions, targets, 1);
    assert OverBuckets(f, 1) == OverBuckets(f, 0) + f(0);
    AbsOfQuotient(Sum(predictions, n), Sum(targets, n), n as real);
    assert OverBuckets(f, 0) == 0.0;
    assert f(0) == Abs(Sum(predictions, n) - Sum(targets, n));
    QuotientOf(Error(predictions, targets, 1), Abs(Sum(predictions, n) - Sum(targets, n)), n as real);
  }

  lemma QuotientOf(e: real, x: real, n: real)
    requires n > 0.0 && e * n == x
    ensures e == x / n
  {
  }

  // ---------------------------------------------------------------- the Pareto frontier

  datatype Metrics = Metrics(modelId: string, logLoss: real, complexity: int)

  predicate Dominates(other: Metrics, candidate: Metrics) {
    && other.logLoss <= candidate.logLoss && other.complexity <= candidate.complexity
    && (other.logLoss < candidate.logLoss || other.complexity < candidate.complexity)
  }

  predicate Dominated(metrics: seq<Metrics>, i: nat)
    requires i < |metrics|
  {
    exists j :: 0 <= j < |metrics| && j != i && Dominates(metrics[j], metrics[i])
  }

  function Frontier(metrics: seq<Metrics>, upTo: nat): seq<Metrics>
    requires upTo <= |metrics|
  {
    if upTo == 0 then []
    else Frontier(metrics, upTo - 1) + if Dominated(metrics, upTo - 1) then [] else [metrics[upTo - 1]]
  }

  /** The sort key's order: loss first, then complexity. */
  predicate NotAfter(a: Metrics, b: Metrics) {
    a.logLoss < b.logLoss || (a.logLoss == b.logLoss && a.complexity <= b.complexity)
  }

  function InsertMetrics(sorted: seq<Metrics>, m: Metrics): seq<Metrics> {
    if sorted == [] || NotAfter(sorted[|sorted|-1], m) then sorted + [m]
    else InsertMetrics(sorted[..|sorted|-1], m) + [sorted[|sorted|-1]]
  }

  /** Stable sorting by loss and complexity. */
  function SortMetrics(metrics: seq<Metrics>): seq<Metrics> {
    if metrics == [] then [] else InsertMetrics(SortMetrics(metrics[..|metrics|-1]), metrics[|metrics|-1])
  }

  ghost predicate InOrder(metrics: seq<Metrics>) {
    forall i, j :: 0 <= i < j < |metrics| ==> NotAfter(metrics[i], metrics[j])
  }

  lemma OneMore(front: seq<Metrics>, last: Metrics)
    requires InOrder(front) && forall m :: m in front ==> NotAfter(m, last)
    ensures InOrder(front + [last])
  {
    hide NotAfter;
    var longer := front + [last];
    forall i, j | 0 <= i < j < |longer| ensures NotAfter(longer[i], longer[j]) {
      assert longer[i] == front[i] && front[i] in front;
    }
  }

  lemma LastIsGreatest(sorted: seq<Metrics>)
    requires sorted != [] && InOrder(sorted)
    ensures InOrder(sorted[..|sorted|-1])
    ensures forall m :: m in sorted ==> NotAfter(m, sorted[|sorted|-1])
  {
  }

  lemma {:induction false} InsertMetricsKeeps(sorted: seq<Metrics>, m: Metrics)
    ensures multiset(InsertMetrics(sorted, m)) == multiset(sorted) + multiset{m}
  {
    hide NotAfter;
    if sorted != [] && !NotAfter(sorted[|sorted|-1], m) {
      InsertMetricsKeeps(sorted[..|sorted|-1], m);
      assert sorted == sorted[..|sorted|-1] + [sorted[|sorted|-1]];
    }
  }

  lemma InsertedMember(sorted: seq<Metrics>, m: Metrics, x: Metrics)
    requires x in InsertMetrics(sorted, m)
    ensures x in sorted || x == m
  {
    hide InsertMetrics;
    InsertMetricsKeeps(sorted, m);
    assert x in multiset(InsertMetrics(sorted, m));
  }

  lemma {:induction false} InsertMetricsSorts(sorted: seq<Metrics>, m: Metrics)
    requires InOrder(sorted)
    ensures InOrder(InsertMetrics(sorted, m))
  {
    if sorted == [] {
      assert InsertMetrics(sorted, m) == [m];
    } else {
      LastIsGreatest(sorted);
      var front, last := sorted[..|sorted|-1], sorted[|sorted|-1];
      if NotAfter(last, m) {
        OneMore(sorted, m);
      } else {
        InsertMetricsSorts(front, m);
        forall x | x in InsertMetrics(front, m) ensures NotAfter(x, last) {
          InsertedMember(front, m, x);
        }
        OneMore(InsertMetrics(front, m), last);
      }
    }
  }

  lemma {:induction false} SortMetricsSorts(metrics: seq<Metrics>)
    ensures InOrder(SortMetrics(metrics)) && multiset(SortMetrics(metrics)) == multiset(metrics)
  {
    if metrics != [] {
      SortMetricsSorts(metrics[..|metrics|-1]);
      InsertMetricsSorts(SortMetrics(metrics[..|metrics|-1]), metrics[|metrics|-1]);
      InsertMetricsKeeps(SortMetrics(metrics[..|metrics|-1]), metrics[|metrics|-1]);
      assert metrics == metrics[..|metrics|-1] + [metrics[|metrics|-1]];
    }
  }

  method ParetoFrontier(metrics: seq<Metrics>) returns (frontier: seq<Metrics>)
    ensures frontier == SortMetrics(Frontier(metrics, |metrics|))
  {
    frontier := [];
    var i := 0;
    while i < |metrics|
      invariant 0 <= i <= |metrics| && frontier == Frontier(metrics, i)
    {
      var dominated := false;
      var j := 0;
      while j < |metrics|
        invariant 0 <= j <= |metrics|
        invariant !dominated && forall k :: 0 <= k < j && k != i ==> !Dominates(metrics[k], metrics[i])
      {
        if j != i && Dominates(metrics[j], metrics[i]) {
          dominated := true;
          break;
        }
        j := j + 1;
      }
      if !dominated {
        frontier := frontier + [metrics[i]];
      }
      i := i + 1;
    }
    frontier := SortMetrics(frontier);
  }

  /** The positions that dominate position `i`. */
  function Dominators(metrics: seq<Metrics>, i: nat): set<int>
    requires i < |metrics|
  {
    set j | 0 <= j < |metrics| && Dominates(metrics[j], metrics[i])
  }

  lemma {:induction false} FrontierMember(metrics: seq<Metrics>, upTo: nat, m: Metrics)
    requires upTo <= |metrics|
    ensures m in Frontier(metrics, upTo) <==> exists i :: 0 <= i < upTo && metrics[i] == m && !Dominated(metrics, i)
  {
    if upTo > 0 {
      FrontierMember(metrics, upTo - 1, m);
    }
  }

  /** Whatever is dominated is dominated by something that is not. */
  lemma {:induction false} DominatedFromFrontier(metrics: seq<Metrics>, i: nat) returns (k: nat)
    requires i < |metrics| && Dominated(metrics, i)
    ensures k < |metrics| && !Dominated(metrics, k) && Dominates(metrics[k], metrics[i])
    decreases Dominators(metrics, i)
  {
    k :| 0 <= k < |metrics| && k != i && Dominates(metrics[k], metrics[i]);
    if Dominated(metrics, k) {
      assert k in Dominators(metrics, i) && k !in Dominators(metrics, k);
      assert forall j :: j in Dominators(metrics, k) ==> j in Dominators(metrics, i);
      k := DominatedFromFrontier(metrics, k);
    }
  }

  /** Every dropped model is beaten by one that was kept, and no kept model beats another. */
  lemma FrontierMembers(metrics: seq<Metrics>)
    ensures var frontier := Frontier(metrics, |metrics|);
            && (forall m :: m in metrics && m !in frontier ==> exists f :: f in frontier && Dominates(f, m))
            && (forall f, g :: f in frontier && g in frontier ==> !Dominates(f, g))
            && (forall f :: f in frontier ==> f in metrics)
            && (metrics != [] ==> frontier != [])
  {
    hide Dominated;
    var frontier := Frontier(metrics, |metrics|);
    forall m ensures m in frontier <==> exists i :: 0 <= i < |metrics| && metrics[i] == m && !Dominated(metrics, i) {
      FrontierMember(metrics, |metrics|, m);
    }
    forall m | m in metrics && m !in frontier ensures exists f :: f in frontier && Dominates(f, m) {
      var i :| 0 <= i < |metrics| && metrics[i] == m;
      var k := DominatedFromFrontier(metrics, i);
      assert metrics[k] in frontier;
    }
    forall f, g | f in frontier && g in frontier ensures !Dominates(f, g) {
      var i :| 0 <= i < |metrics| && metrics[i] == f && !Dominated(metrics, i);
      var j :| 0 <= j < |metrics| && metrics[j] == g && !Dominated(metrics, j);
      NotDominated(metrics, i, j);
    }
    if metrics != [] {
      assert metrics[0] in metrics;
    }
  }

  lemma NotDominated(metrics: seq<Metrics>, i: nat, j: nat)
    requires i < |metrics| && j < |metrics| && !Dominated(metrics, j)
    ensures !Dominates(metrics[i], metrics[j])
  {
  }

  /**
    Every dropped model is beaten by one that was kept, no kept model beats
    another, and along the sorted frontier the loss only rises while the
    complexity only falls.
  */
  lemma FrontierIsEnough(metrics: seq<Metrics>)
    ensures var frontier := SortMetrics(Frontier(metrics, |metrics|));
            && (forall m :: m in metrics && m !in frontier ==> exists f :: f in frontier && Dominates(f, m))
            && (forall f, g :: f in frontier && g in frontier ==> !Dominates(f, g))
            && (forall f :: f in frontier ==> f in metrics)
            && (metrics != [] ==> frontier != [])
            && (forall i, j :: 0 <= i < j < |frontier| ==>
                 frontier[i].logLoss <= frontier[j].logLoss && frontier[i].complexity >= frontier[j].complexity)
  {
    hide Frontier, SortMetrics;
    var kept := Frontier(metrics, |metrics|);
    var frontier := SortMetrics(kept);
    FrontierMembers(metrics);
    SortMetricsSorts(kept);
    forall m ensures m in frontier <==> m in kept {
      assert m in frontier <==> m in multiset(frontier);
      assert m in kept <==> m in multiset(kept);
    }
    assert |frontier| == |multiset(frontier)| == |kept|;
    forall i, j | 0 <= i < j < |frontier|
      ensures frontier[i].logLoss <= frontier[j].logLoss && frontier[i].complexity >= frontier[j].complexity
    {
      assert frontier[i] in frontier && frontier[j] in frontier;
      assert NotAfter(frontier[i], frontier[j]) && !Dominates(frontier[i], frontier[j]);
    }
  }

  /** Some model dominates `m`. */
  ghost predicate Beaten(metrics: seq<Metrics>, m: Metrics) {
    exists j :: 0 <= j < |metrics| && Dominates(metrics[j], m)
  }

  lemma {:induction false} FrontierCopies(metrics: seq<Metrics>, upTo: nat, m: Metrics)
    requires upTo <= |metrics|
    ensures multiset(Frontier(metrics, upTo))[m] == if Beaten(metrics, m) then 0 else multiset(metrics[..upTo])[m]
  {
    if upTo > 0 {
      FrontierCopies(metrics, upTo - 1, m);
      assert metrics[..upTo] == metrics[..upTo - 1] + [metrics[upTo - 1]];
      DominatedIsBeaten(metrics, upTo - 1);
    }
  }

  lemma DominatedIsBeaten(metrics: seq<Metrics>, i: nat)
    requires i < |metrics|
    ensures Dominated(metrics, i) <==> Beaten(metrics, metrics[i])
  {
  }

  /** A model is on the frontier as often as it was given when no model dominates it, and else not at all. */
  lemma FrontierExactly(metrics: seq<Metrics>, m: Metrics)
    ensures multiset(SortMetrics(Frontier(metrics, |metrics|)))[m] ==
      if exists j :: 0 <= j < |metrics| && Dominates(metrics[j], m) then 0 else multiset(metrics)[m]
  {
    hide Frontier, SortMetrics, Dominates;
    SortMetricsSorts(Frontier(metrics, |metrics|));
    FrontierCopies(metrics, |metrics|, m);
    assert metrics[..|metrics|] == metrics;
  }
}
