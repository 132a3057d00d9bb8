/** The largest fall of an equity curve from an earlier peak. */
module Equity {
  import opened Arithmetic
  import opened Rounding

  function Peak(curve: seq<Money>): Money
    requires curve != []
  {
    var n := |curve| - 1;
    if n == 0 then curve[0] else Max(Peak(curve[..n]), curve[n])
  }

  function MaxDrawdown(curve: seq<Money>): Money {
    if curve == [] then 0
    else
      var n := |curve| - 1;
      Max(MaxDrawdown(curve[..n]), Peak(curve) - curve[n])
  }

  lemma {:induction false} PeakIsLargest(curve: seq<Money>)
    requires curve != []
    ensures Peak(curve) in curve
    ensures forall i :: 0 <= i < |curve| ==> curve[i] <= Peak(curve)
  {
    if |curve| > 1 { PeakIsLargest(curve[..|curve| - 1]); }
  }

  predicate FallsBy(curve: seq<Money>, i: nat, j: nat, fall: Money) {
    i <= j < |curve| && curve[i] - curve[j] == fall
  }

  /** The drawdown is the maximum of curve[i] - curve[j] over all i <= j: no pair exceeds it, one attains it. */
  lemma {:induction false} MaxDrawdownIsLargestFall(curve: seq<Money>)
    ensures forall i, j :: 0 <= i <= j < |curve| ==> curve[i] - curve[j] <= MaxDrawdown(curve)
    ensures curve != [] ==> exists i: nat, j: nat :: FallsBy(curve, i, j, MaxDrawdown(curve))
    ensures MaxDrawdown(curve) >= 0 && (curve == [] ==> MaxDrawdown(curve) == 0)
  {
    if curve != [] {
      var n := |curve| - 1;
      MaxDrawdownIsLargestFall(curve[..n]);
      PeakIsLargest(curve);
      if n > 0 && MaxDrawdown(curve) == MaxDrawdown(curve[..n]) {
        var i: nat, j: nat :| FallsBy(curve[..n], i, j, MaxDrawdown(curve));
        assert FallsBy(curve, i, j, MaxDrawdown(curve));
      } else {
        var i :| 0 <= i < |curve| && curve[i] == Peak(curve);
        assert FallsBy(curve, i, n, Peak(curve) - curve[n]);
      }
    }
  }

  /** The single-pass scan of a curve. */
  method CalculateMaxDrawdown(curve: seq<Money>) returns (drawdown: Money)
    ensures drawdown == MaxDrawdown(curve)
  {
    drawdown := 0;
    if curve == [] { return; }
    var peak := curve[0];
    for k := 0 to |curve|
      invariant peak == if k == 0 then curve[0] else Peak(curve[..k])
      invariant drawdown == MaxDrawdown(curve[..k])
    {
      assert curve[..k + 1][..k] == curve[..k];
      peak := Max(peak, curve[k]);
      drawdown := Max(drawdown, peak - curve[k]);
    }
    assert curve[..|curve|] == curve;
  }
}
