/** Percentiles, confidence intervals, value at risk and conditional value at risk of a sorted sample. */
module RiskStatistics {
  import opened Arithmetic
  import opened Sorting
  import opened Sums

  predicate Sorted(values: seq<real>) {
    forall i, j :: 0 <= i <= j < |values| ==> values[i] <= values[j]
  }

  function Between(low: real, high: real, fraction: real): real { low + (high - low) * fraction }

  lemma BetweenMonotone(low: real, high: real, f: real, g: real)
    requires low <= high && 0.0 <= f <= g <= 1.0
    ensures low <= Between(low, high, f) <= Between(low, high, g) <= high
  {
    MulMonotone(0.0, f, high - low);
    MulMonotone(f, g, high - low);
    MulMonotone(g, 1.0, high - low);
  }

  /** The linear interpolation between the ranks around a fractional one. */
  function Interpolate(values: seq<real>, rank: real): real
    requires values != [] && 0.0 <= rank <= (|values| - 1) as real
  {
    var lower := rank.Floor;
    var upper := if lower + 1 < |values| - 1 then lower + 1 else |values| - 1;
    Between(values[lower], values[upper], rank - lower as real)
  }

  function RankOf(values: seq<real>, percentile: real): real
    requires values != []
  {
    (percentile / 100.0) * (|values| - 1) as real
  }

  lemma RankMonotone(values: seq<real>, p: real, q: real)
    requires values != [] && 0.0 <= p <= q <= 100.0
    ensures 0.0 <= RankOf(values, p) <= RankOf(values, q) <= (|values| - 1) as real
  {
    MulMonotone(0.0, p / 100.0, (|values| - 1) as real);
    MulMonotone(p / 100.0, q / 100.0, (|values| - 1) as real);
    MulMonotone(q / 100.0, 1.0, (|values| - 1) as real);
  }

  function Percentile(values: seq<real>, percentile: real): real
    requires values != [] && 0.0 <= percentile <= 100.0
  {
    if |values| == 1 then values[0]
    else
      RankMonotone(values, percentile, percentile);
      Interpolate(values, RankOf(values, percentile))
  }

  /** An interpolated value lies between its two neighbours. */
  lemma InterpolateBetween(values: seq<real>, rank: real)
    requires values != [] && Sorted(values) && 0.0 <= rank <= (|values| - 1) as real
    ensures values[rank.Floor] <= Interpolate(values, rank)
    ensures rank.Floor + 1 < |values| ==> Interpolate(values, rank) <= values[rank.Floor + 1]
    ensures values[0] <= Interpolate(values, rank) <= values[|values| - 1]
  {
    var lower := rank.Floor;
    var upper := if lower + 1 < |values| - 1 then lower + 1 else |values| - 1;
    BetweenMonotone(values[lower], values[upper], rank - lower as real, rank - lower as real);
  }

  lemma InterpolateMonotone(values: seq<real>, r: real, s: real)
    requires values != [] && Sorted(values) && 0.0 <= r <= s <= (|values| - 1) as real
    ensures Interpolate(values, r) <= Interpolate(values, s)
  {
    if r.Floor == s.Floor {
      var lower := r.Floor;
      var upper := if lower + 1 < |values| - 1 then lower + 1 else |values| - 1;
      BetweenMonotone(values[lower], values[upper], r - lower as real, s - lower as real);
    } else {
      InterpolateBetween(values, r);
      InterpolateBetween(values, s);
      assert values[r.Floor + 1] <= values[s.Floor];
    }
  }

  /** Percentiles are monotone in the percentile and stay within the sample. */
  lemma PercentileMonotone(values: seq<real>, p: real, q: real)
    requires values != [] && Sorted(values) && 0.0 <= p <= q <= 100.0
    ensures values[0] <= Percentile(values, p) <= Percentile(values, q) <= values[|values| - 1]
  {
    if |values| > 1 {
      RankMonotone(values, p, q);
      InterpolateMonotone(values, RankOf(values, p), RankOf(values, q));
      InterpolateBetween(values, RankOf(values, p));
      InterpolateBetween(values, RankOf(values, q));
    }
  }

  /** The percentile that belongs to a position between two neighbours of the sample, and its value: the interpolation
      is linear between the values. */
  lemma PercentileInterpolates(values: seq<real>, k: nat, fraction: real)
    requires k + 1 < |values| && 0.0 <= fraction <= 1.0
    ensures var percentile := 100.0 * ((k as real + fraction) / (|values| - 1) as real);
            && 0.0 <= percentile <= 100.0
            && Percentile(values, percentile) == values[k] + (values[k + 1] - values[k]) * fraction
  {
    var steps := (|values| - 1) as real;
    var rank := k as real + fraction;
    var percentile := 100.0 * (rank / steps);
    ShareOf(rank, steps);
    Divided(rank, steps);
    assert RankOf(values, percentile) == rank;
    InterpolateAt(values, k, fraction);
  }

  lemma ShareOf(part: real, whole: real)
    requires 0.0 <= part <= whole && whole > 0.0
    ensures 0.0 <= part / whole <= 1.0
  {
    DivideMonotone(0.0, part, whole);
    DivideMonotone(part, whole, whole);
  }

  lemma InterpolateAt(values: seq<real>, k: nat, fraction: real)
    requires k + 1 < |values| && 0.0 <= fraction <= 1.0
    ensures Interpolate(values, k as real + fraction) == values[k] + (values[k + 1] - values[k]) * fraction
  {
    var rank := k as real + fraction;
    BetweenIs(values[k], values[k + 1], fraction);
    hide Between;
    if fraction < 1.0 {
      assert rank.Floor == k && rank - k as real == fraction;
    } else {
      assert rank.Floor == k + 1 && rank - (k + 1) as real == 0.0;
      var upper := if k + 2 < |values| - 1 then k + 2 else |values| - 1;
      BetweenEnds(values[k], values[k + 1]);
      BetweenEnds(values[k + 1], values[upper]);
    }
  }

  lemma BetweenIs(low: real, high: real, fraction: real)
    ensures Between(low, high, fraction) == low + (high - low) * fraction
  {
  }

  lemma BetweenEnds(low: real, high: real)
    ensures Between(low, high, 0.0) == low && Between(low, high, 1.0) == high
  {
  }

  /** The lowest and highest percentiles are the extremes of the sample. */
  lemma PercentileExtremes(values: seq<real>)
    requires values != [] && Sorted(values)
    ensures Percentile(values, 0.0) == values[0]
    ensures Percentile(values, 100.0) == values[|values| - 1]
  {
    if |values| > 1 {
      assert RankOf(values, 0.0) == 0.0;
      assert RankOf(values, 100.0) == (|values| - 1) as real;
    }
  }

  function Median(values: seq<real>): real
    requires values != []
  {
    var half := |values| / 2;
    if |values| % 2 == 1 then values[half] else (values[half - 1] + values[half]) / 2.0
  }

  lemma MedianIsPercentile50(values: seq<real>)
    requires values != [] && Sorted(values)
    ensures Percentile(values, 50.0) == Median(values)
  {
    if |values| > 1 {
      var half := |values| / 2;
      var rank := RankOf(values, 50.0);
      assert rank == (|values| - 1) as real / 2.0;
      if |values| % 2 == 1 {
        assert |values| == 2 * half + 1 && rank == half as real;
      } else {
        assert |values| == 2 * half && rank.Floor == half - 1 && rank - (half - 1) as real == 0.5;
      }
    }
  }

  datatype Interval = Interval(lower: real, upper: real)

  function ConfidenceInterval(values: seq<real>, confidence: real): Interval
    requires values != [] && 0.0 <= confidence <= 100.0
  {
    var tail := (100.0 - confidence) / 2.0;
    Interval(Percentile(values, tail), Percentile(values, 100.0 - tail))
  }

  /** The interval contains the median and lies within the sample; more confidence never narrows it. */
  lemma IntervalAroundMedian(values: seq<real>, confidence: real, wider: real)
    requires values != [] && Sorted(values) && 0.0 <= confidence <= wider <= 100.0
    ensures var narrow, wide := ConfidenceInterval(values, confidence), ConfidenceInterval(values, wider);
            && wide.lower <= narrow.lower <= Median(values) <= narrow.upper <= wide.upper
            && values[0] <= wide.lower && wide.upper <= values[|values| - 1]
  {
    var tail, thin := (100.0 - confidence) / 2.0, (100.0 - wider) / 2.0;
    MedianIsPercentile50(values);
    PercentileMonotone(values, thin, tail);
    PercentileMonotone(values, tail, 50.0);
    PercentileMonotone(values, 50.0, 100.0 - tail);
    PercentileMonotone(values, 100.0 - tail, 100.0 - thin);
  }

  function ValueAtRisk(values: seq<real>, confidence: real): real
    requires values != [] && 0.0 <= confidence <= 100.0
  {
    var threshold := Percentile(values, 100.0 - confidence);
    if threshold < 0.0 then -threshold else 0.0
  }

  /** The interval leaves out the same share of the sample on both sides. */
  lemma IntervalIs(values: seq<real>, confidence: real)
    requires values != [] && 0.0 <= confidence <= 100.0
    ensures ConfidenceInterval(values, confidence)
            == Interval(Percentile(values, 50.0 - confidence / 2.0), Percentile(values, 50.0 + confidence / 2.0))
  {
  }

  /** The value at risk is the loss at the percentile that the confidence leaves, and zero when that is a gain. */
  lemma ValueAtRiskIs(values: seq<real>, confidence: real)
    requires values != [] && 0.0 <= confidence <= 100.0
    ensures var threshold := Percentile(values, 100.0 - confidence);
            && ValueAtRisk(values, confidence) >= 0.0
            && (ValueAtRisk(values, confidence) > 0.0 <==> threshold < 0.0)
            && (threshold < 0.0 ==> ValueAtRisk(values, confidence) + threshold == 0.0)
  {
    hide Percentile;
  }

  /** The values at or below a threshold, in order. */
  function TailBelow(values: seq<real>, threshold: real): seq<real> {
    if values == [] then []
    else
      var n := |values| - 1;
      TailBelow(values[..n], threshold) + if values[n] <= threshold then [values[n]] else []
  }

  function SumReal(values: seq<real>): real {
    if values == [] then 0.0 else SumReal(values[..|values| - 1]) + values[|values| - 1]
  }

  function Mean(values: seq<real>): real
    requires values != []
  {
    SumReal(values) / |values| as real
  }

  function ConditionalValueAtRisk(values: seq<real>, confidence: real): real
    requires values != [] && 0.0 <= confidence <= 100.0
  {
    var tail := TailBelow(values, Percentile(values, 100.0 - confidence));
    if tail == [] then 0.0
    else if Mean(tail) < 0.0 then -Mean(tail) else 0.0
  }

  lemma {:induction false} TailMembers(values: seq<real>, threshold: real)
    ensures forall i :: 0 <= i < |TailBelow(values, threshold)| ==> TailBelow(values, threshold)[i] <= threshold
    ensures forall i :: 0 <= i < |values| && values[i] <= threshold ==> values[i] in TailBelow(values, threshold)
  {
    if values != [] { TailMembers(values[..|values| - 1], threshold); }
  }

  function AtMost(values: seq<real>, threshold: real): nat -> bool {
    (i: nat) => i < |values| && values[i] <= threshold
  }

  lemma {:induction false} TailIsPicked(values: seq<real>, threshold: real)
    ensures Picked(values, AtMost(values, threshold), TailBelow(values, threshold))
  {
    if values == [] {
      PickedNone<real>(AtMost(values, threshold));
    } else {
      var n := |values| - 1;
      TailIsPicked(values[..n], threshold);
      var at := WherePicked(values[..n], AtMost(values[..n], threshold), TailBelow(values[..n], threshold));
      assert Indices(at, n, AtMost(values, threshold)) by {
        assert forall i: nat :: i < n ==> values[..n][i] == values[i];
      }
      PickedFrom(values[..n], AtMost(values, threshold), at, TailBelow(values[..n], threshold));
      hide Picked, Indices;
      PickedNext(values, AtMost(values, threshold), TailBelow(values[..n], threshold));
    }
  }

  /** The tail is exactly the values up to the threshold, in order. */
  lemma TailIsExact(values: seq<real>, threshold: real) returns (at: seq<nat>)
    ensures forall j, k :: 0 <= j < k < |at| ==> at[j] < at[k]
    ensures forall i: nat :: i in at <==> i < |values| && values[i] <= threshold
    ensures ItemsAt(values, at, TailBelow(values, threshold))
  {
    TailIsPicked(values, threshold);
    at := WherePicked(values, AtMost(values, threshold), TailBelow(values, threshold));
  }

  /** The conditional value at risk is the mean loss of the tail up to the percentile that the confidence leaves, and
      zero when the tail gains on average. */
  lemma ConditionalValueIs(values: seq<real>, confidence: real)
    requires values != [] && 0.0 <= confidence <= 100.0
    requires TailBelow(values, Percentile(values, 100.0 - confidence)) != []
    ensures var tail := TailBelow(values, Percentile(values, 100.0 - confidence));
            ConditionalValueAtRisk(values, confidence) * |tail| as real
            == if SumReal(tail) < 0.0 then -SumReal(tail) else 0.0
  {
    hide Percentile, TailBelow, SumReal;
    var tail := TailBelow(values, Percentile(values, 100.0 - confidence));
    var total, count := SumReal(tail), |tail| as real;
    Divided(total, count);
    if total < 0.0 {
      NegativeQuotient(total, count);
    } else {
      DivideMonotone(0.0, total, count);
    }
  }

  lemma NegativeQuotient(x: real, q: real)
    requires x < 0.0 && q > 0.0
    ensures x / q < 0.0
  {
    Divided(x, q);
    if x / q >= 0.0 { MulMonotone(0.0, x / q, q); }
  }

  lemma {:induction false} SumBounded(values: seq<real>, bound: real)
    requires forall i :: 0 <= i < |values| ==> values[i] <= bound
    ensures SumReal(values) <= |values| as real * bound
  {
    if values != [] { SumBounded(values[..|values| - 1], bound); }
  }

  lemma MeanBounded(values: seq<real>, bound: real)
    requires values != [] && forall i :: 0 <= i < |values| ==> values[i] <= bound
    ensures Mean(values) <= bound
  {
    SumBounded(values, bound);
    QuotientBounded(SumReal(values), bound, |values| as real);
  }

  lemma QuotientBounded(sum: real, bound: real, n: real)
    requires n > 0.0 && sum <= n * bound
    ensures sum / n <= bound
  {
    assert (sum / n) * n == sum;
  }

  /** For every non-empty sample and confidence: the tail is never empty, and the expected loss in the tail is at
      least the value at risk, which is never negative and grows with the confidence. */
  lemma TailRiskOrder(values: seq<real>, confidence: real, higher: real)
    requires values != [] && Sorted(values) && 0.0 <= confidence <= higher <= 100.0
    ensures TailBelow(values, Percentile(values, 100.0 - confidence)) != []
    ensures 0.0 <= ValueAtRisk(values, confidence) <= ConditionalValueAtRisk(values, confidence)
    ensures ValueAtRisk(values, confidence) <= ValueAtRisk(values, higher)
  {
    hide Percentile, Mean, TailBelow;
    var threshold := Percentile(values, 100.0 - confidence);
    PercentileMonotone(values, 100.0 - higher, 100.0 - confidence);
    TailMembers(values, threshold);
    assert values[0] in TailBelow(values, threshold);
    MeanBounded(TailBelow(values, threshold), threshold);
  }

  // ---------------------------------------------------------------- samples as they come

  function Same(x: real): real { x }

  /** The sample in the order the statistics read it in. */
  function SortedSample(sample: seq<real>): seq<real> { SortBy(Same, sample) }

  /** Whatever order the simulations ran in, the statistics read the same sorted sample, which holds the values that
      came. */
  lemma SampleOrderIrrelevant(sample: seq<real>, other: seq<real>)
    requires multiset(sample) == multiset(other)
    ensures Sorted(SortedSample(sample)) && multiset(SortedSample(sample)) == multiset(sample)
    ensures SortedSample(sample) == SortedSample(other)
  {
    SampleSorted(sample);
    SampleSorted(other);
    SortOrders(Same, sample);
    SortOrders(Same, other);
    SortedUnique(Same, SortedSample(sample), SortedSample(other));
  }

  lemma SampleSorted(sample: seq<real>)
    ensures Sorted(SortedSample(sample)) && multiset(SortedSample(sample)) == multiset(sample)
  {
    SortOrders(Same, sample);
    SortPermutes(Same, sample);
    var sorted := SortedSample(sample);
    forall i, j | 0 <= i <= j < |sorted| ensures sorted[i] <= sorted[j] {
      assert i < j ==> Same(sorted[i]) <= Same(sorted[j]);
    }
  }
}
