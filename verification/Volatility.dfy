/** The Average True Range the risk engine places stops and targets by. */
module Volatility {
  import opened Arithmetic
  import opened Market
  import opened Rounding

  const ATR_PERIOD: nat := 14

  /** The range of a candle, widened to the previous close when there is one. */
  function TrueRange(candles: seq<Candle>, i: nat): real
    requires i < |candles|
  {
    var range := candles[i].high - candles[i].low;
    if i == 0 then range
    else
      var previous := candles[i - 1].close;
      MaxReal(range, MaxReal(Abs(candles[i].high - previous), Abs(candles[i].low - previous)))
  }

  function RangeTotal(candles: seq<Candle>, n: nat): real
    requires n <= |candles|
  {
    if n == 0 then 0.0 else RangeTotal(candles, n - 1) + TrueRange(candles, n - 1)
  }

  /** A mean with one more value weighted in by one part of the period. */
  function Blend(mean: real, value: real, period: real): real
    requires period >= 1.0
  {
    (mean * (period - 1.0) + value) / period
  }

  /** The plain mean of the first ranges, then each further range weighted in by one part of the period. */
  function Smoothed(candles: seq<Candle>, period: nat, n: nat): real
    requires 1 <= period <= n <= |candles|
    decreases n
  {
    if n == period then RangeTotal(candles, period) / period as real
    else Blend(Smoothed(candles, period, n - 1), TrueRange(candles, n - 1), period as real)
  }

  function Atr(candles: seq<Candle>, period: nat): real
    requires 1 <= period <= |candles|
  {
    RoundTo(Smoothed(candles, period, |candles|), UNITS)
  }

  /** None is the ValueError of too few candles. */
  method CalculateAtr(candles: seq<Candle>, period: nat) returns (atr: Option<real>)
    requires period >= 1
    ensures atr == if |candles| < period then None else Some(Atr(candles, period))
  {
    hide TrueRange, Blend;
    if |candles| < period { return None; }
    var total := 0.0;
    for i := 0 to period
      invariant total == RangeTotal(candles, i)
    {
      total := total + TrueRange(candles, i);
    }
    var average := total / period as real;
    for i := period to |candles|
      invariant average == Smoothed(candles, period, i)
    {
      average := Blend(average, TrueRange(candles, i), period as real);
    }
    atr := Some(RoundTo(average, UNITS));
  }

  /** The true range spans the candle and the close before it; that of the first candle is its own. */
  lemma TrueRangeSpans(candles: seq<Candle>, i: nat)
    requires i < |candles| && candles[i].low <= candles[i].high
    ensures i == 0 ==> TrueRange(candles, i) == candles[i].high - candles[i].low
    ensures i > 0 ==> TrueRange(candles, i) == MaxReal(candles[i].high, candles[i - 1].close)
                                               - MinReal(candles[i].low, candles[i - 1].close)
  {
  }

  /** The smoothing: the plain mean of the first ranges, and from each candle to the next one part in the period of
      what the new range differs from the mean. */
  lemma SmoothingMoves(candles: seq<Candle>, period: nat, n: nat)
    requires 1 <= period <= n <= |candles|
    ensures n == period ==> Smoothed(candles, period, n) * period as real == RangeTotal(candles, period)
    ensures n > period ==>
              var before := Smoothed(candles, period, n - 1);
              (Smoothed(candles, period, n) - before) * period as real == TrueRange(candles, n - 1) - before
    ensures n == |candles| ==> Atr(candles, period) == RoundTo(Smoothed(candles, period, n), 10000.0)
  {
    hide TrueRange, RangeTotal;
    if n == period {
      Divided(RangeTotal(candles, period), period as real);
    } else {
      BlendMoves(Smoothed(candles, period, n - 1), TrueRange(candles, n - 1), period as real);
    }
  }

  lemma BlendMoves(mean: real, value: real, period: real)
    requires period >= 1.0
    ensures (Blend(mean, value, period) - mean) * period == value - mean
  {
    Divided(mean * (period - 1.0) + value, period);
  }

  // ---------------------------------------------------------------- bounds

  /** Every true range is within two bounds. */
  predicate RangesWithin(candles: seq<Candle>, low: real, high: real) {
    forall i :: 0 <= i < |candles| ==> low <= TrueRange(candles, i) <= high
  }

  lemma OneMore(x: real, n: nat)
    requires n > 0
    ensures x * n as real == x * (n - 1) as real + x
  {
  }

  lemma {:induction false} TotalWithin(candles: seq<Candle>, low: real, high: real, n: nat)
    requires RangesWithin(candles, low, high) && n <= |candles|
    ensures low * n as real <= RangeTotal(candles, n) <= high * n as real
  {
    hide TrueRange;
    if n > 0 {
      TotalWithin(candles, low, high, n - 1);
      assert low <= TrueRange(candles, n - 1) <= high;
      OneMore(low, n);
      OneMore(high, n);
    }
  }

  /** A sum between bounds times a count has its mean between the bounds. */
  lemma MeanWithin(total: real, low: real, high: real, count: real)
    requires count > 0.0 && low * count <= total <= high * count
    ensures low <= total / count <= high
  {
    DivideMonotone(low * count, total, count);
    DivideMonotone(total, high * count, count);
    assert (low * count) / count == low && (high * count) / count == high;
  }

  lemma BlendWithin(mean: real, value: real, period: real, low: real, high: real)
    requires period >= 1.0 && low <= mean <= high && low <= value <= high
    ensures low <= Blend(mean, value, period) <= high
  {
    MulMonotone(low, mean, period - 1.0);
    MulMonotone(mean, high, period - 1.0);
    assert low * period == low * (period - 1.0) + low && high * period == high * (period - 1.0) + high;
    MeanWithin(mean * (period - 1.0) + value, low, high, period);
  }

  /** Smoothing never leaves the bounds of what it smooths. */
  lemma {:induction false} SmoothedWithin(candles: seq<Candle>, period: nat, low: real, high: real, n: nat)
    requires 1 <= period <= n <= |candles| && RangesWithin(candles, low, high)
    ensures low <= Smoothed(candles, period, n) <= high
    decreases n
  {
    hide TrueRange, Blend, RangeTotal;
    if n == period {
      TotalWithin(candles, low, high, period);
      MeanWithin(RangeTotal(candles, period), low, high, period as real);
    } else {
      SmoothedWithin(candles, period, low, high, n - 1);
      assert low <= TrueRange(candles, n - 1) <= high;
      BlendWithin(Smoothed(candles, period, n - 1), TrueRange(candles, n - 1), period as real, low, high);
    }
  }

  /** The indicator lies between the smallest and the largest true range, up to its rounding. */
  lemma AtrWithinRanges(candles: seq<Candle>, period: nat, low: real, high: real)
    requires 1 <= period <= |candles| && RangesWithin(candles, low, high)
    ensures RoundTo(low, UNITS) <= Atr(candles, period) <= RoundTo(high, UNITS)
  {
    SmoothedWithin(candles, period, low, high, |candles|);
    RoundToMonotone(low, Smoothed(candles, period, |candles|), UNITS);
    RoundToMonotone(Smoothed(candles, period, |candles|), high, UNITS);
  }

  lemma {:induction false} LargestRange(candles: seq<Candle>, n: nat) returns (high: real)
    requires n <= |candles|
    ensures forall i :: 0 <= i < n ==> TrueRange(candles, i) <= high
  {
    high := 0.0;
    if n > 0 {
      high := LargestRange(candles, n - 1);
      high := MaxReal(high, TrueRange(candles, n - 1));
    }
  }

  /** On genuine candles the volatility is not negative. */
  lemma AtrNonNegative(candles: seq<Candle>, period: nat)
    requires 1 <= period <= |candles| && AllWellFormed(candles)
    ensures Atr(candles, period) >= 0.0
  {
    var high := LargestRange(candles, |candles|);
    assert RangesWithin(candles, 0.0, high);
    AtrWithinRanges(candles, period, 0.0, high);
    RoundWhole(0);
  }
}
