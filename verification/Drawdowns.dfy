/** Drawdown episodes: one pass over the equity curve finds every peak-to-recovery stretch. */
module Drawdowns {
  import opened Arithmetic
  import opened Market
  import opened Rounding
  import opened Equity

  datatype EquityPoint = EquityPoint(timestamp: Time, equity: Money)

  datatype DrawdownEpisode = DrawdownEpisode(
    peakTime: Time,
    troughTime: Time,
    recoveryTime: Option<Time>,
    depth: Money,
    depthPercent: real)

  /** An episode by its positions in the curve. */
  datatype Span = Span(peak: nat, trough: nat, recovery: Option<nat>)
  {
    /** The first position after the episode's interior. */
    function End(length: nat): nat { if recovery.Some? then recovery.value else length }

    predicate Within(length: nat) {
      peak < trough < End(length) <= length && (recovery.Some? ==> recovery.value < length)
    }

    predicate Interior(length: nat, i: int) { peak < i < End(length) }
  }

  function BuildEpisode(peak: EquityPoint, trough: EquityPoint, recovery: Option<EquityPoint>): DrawdownEpisode {
    var depth := peak.equity - trough.equity;
    DrawdownEpisode(peak.timestamp, trough.timestamp,
                    if recovery.Some? then Some(recovery.value.timestamp) else None,
                    depth,
                    if peak.equity == 0 then 0.0 else RoundTo(depth as real / peak.equity as real * 100.0, UNITS))
  }

  // ---------------------------------------------------------------- what an episode is

  /** The peak is the running maximum and its last occurrence; everything inside is below it; the trough is the
      first lowest point inside; the recovery, if any, reaches the peak again. */
  ghost predicate IsEpisode(curve: seq<EquityPoint>, s: Span) {
    && s.Within(|curve|)
    && (forall i :: 0 <= i <= s.peak ==> curve[i].equity <= curve[s.peak].equity)
    && (forall i :: s.peak < i < s.End(|curve|) ==> curve[s.trough].equity <= curve[i].equity < curve[s.peak].equity)
    && (forall i :: s.peak < i < s.trough ==> curve[s.trough].equity < curve[i].equity)
    && (s.recovery.Some? ==> curve[s.recovery.value].equity >= curve[s.peak].equity)
  }

  /** Strictly below an earlier point. */
  ghost predicate Underwater(curve: seq<EquityPoint>, i: nat)
    requires i < |curve|
  {
    exists j :: 0 <= j < i && curve[j].equity > curve[i].equity
  }

  predicate Covered(spans: seq<Span>, length: nat, i: nat) {
    exists k :: 0 <= k < |spans| && spans[k].Interior(length, i)
  }

  /** Every span is an episode, each ends before the next begins, and every underwater point is in one. */
  ghost predicate IsDecomposition(curve: seq<EquityPoint>, spans: seq<Span>) {
    && (forall k :: 0 <= k < |spans| ==> IsEpisode(curve, spans[k]))
    && (forall k, l :: 0 <= k < l < |spans| ==> spans[k].recovery.Some? && spans[k].recovery.value <= spans[l].peak)
    && (forall i: nat :: i < |curve| && Underwater(curve, i) ==> Covered(spans, |curve|, i))
  }

  // ---------------------------------------------------------------- the single pass

  /** What the pass knows about the points up to a position: the current peak and, below it, the current trough. */
  ghost predicate AtPeak(curve: seq<EquityPoint>, k: nat, peak: nat) {
    && k <= |curve| && peak < k
    && (forall i :: 0 <= i < k ==> curve[i].equity <= curve[peak].equity)
    && (forall i :: peak < i < k ==> curve[i].equity < curve[peak].equity)
  }

  ghost predicate AtTrough(curve: seq<EquityPoint>, k: nat, peak: nat, trough: nat) {
    && k <= |curve| && peak < trough < k
    && (forall i :: peak < i < k ==> curve[trough].equity <= curve[i].equity)
    && (forall i :: peak < i < trough ==> curve[trough].equity < curve[i].equity)
  }

  /** The finished episodes account for everything up to the current peak. */
  ghost predicate Finished(curve: seq<EquityPoint>, spans: seq<Span>, peak: nat) {
    && peak < |curve|
    && (forall k :: 0 <= k < |spans| ==>
          IsEpisode(curve, spans[k]) && spans[k].recovery.Some? && spans[k].recovery.value <= peak)
    && (forall k, l :: 0 <= k < l < |spans| ==> spans[k].recovery.value <= spans[l].peak)
    && (forall i: nat :: i <= peak && Underwater(curve, i) ==> Covered(spans, |curve|, i))
  }

  /** An episode as a reader of the curve finds it: its three times, its depth, and the depth as a percentage of the
      peak, rounded to four decimals. */
  predicate Describes(curve: seq<EquityPoint>, s: Span, e: DrawdownEpisode) {
    && s.Within(|curve|)
    && var peak, trough := curve[s.peak], curve[s.trough];
    && e.peakTime == peak.timestamp
    && e.troughTime == trough.timestamp
    && e.recoveryTime == (if s.recovery.Some? then Some(curve[s.recovery.value].timestamp) else None)
    && e.depth == peak.equity - trough.equity
    && (if peak.equity == 0 then e.depthPercent == 0.0
        else
          var percent := 100.0 * e.depth as real / peak.equity as real;
          e.depthPercent == RoundTo(percent, 10000.0) && Abs(e.depthPercent - percent) <= HALF_UNIT)
  }

  ghost predicate Listed(curve: seq<EquityPoint>, spans: seq<Span>, episodes: seq<DrawdownEpisode>) {
    && |episodes| == |spans|
    && (forall k :: 0 <= k < |spans| ==> Describes(curve, spans[k], episodes[k]))
  }

  lemma ListedNext(curve: seq<EquityPoint>, spans: seq<Span>, episodes: seq<DrawdownEpisode>, s: Span)
    requires Listed(curve, spans, episodes) && s.Within(|curve|)
    ensures var recovery := if s.recovery.Some? then Some(curve[s.recovery.value]) else None;
            Listed(curve, spans + [s], episodes + [BuildEpisode(curve[s.peak], curve[s.trough], recovery)])
  {
    var peak, trough := curve[s.peak].equity, curve[s.trough].equity;
    if peak != 0 {
      PercentOf((peak - trough) as real, peak as real);
      RoundToNear((peak - trough) as real / peak as real * 100.0, UNITS);
    }
    hide RoundTo;
  }

  /** Closing the current episode at a recovery. */
  lemma RecoveryFinishes(curve: seq<EquityPoint>, spans: seq<Span>, peak: nat, trough: nat, k: nat)
    requires Finished(curve, spans, peak) && AtPeak(curve, k, peak) && AtTrough(curve, k, peak, trough)
    requires k < |curve| && curve[k].equity >= curve[peak].equity
    ensures Finished(curve, spans + [Span(peak, trough, Some(k))], k)
  {
    var s := Span(peak, trough, Some(k));
    var more := spans + [s];
    assert IsEpisode(curve, s);
    hide IsEpisode;
    forall i: nat | i <= k && Underwater(curve, i) ensures Covered(more, |curve|, i) {
      if i <= peak {
        var l :| 0 <= l < |spans| && spans[l].Interior(|curve|, i);
        assert more[l].Interior(|curve|, i);
      } else {
        assert i < k;
        assert more[|spans|].Interior(|curve|, i);
      }
    }
  }

  lemma StartFinished(curve: seq<EquityPoint>)
    requires curve != []
    ensures Finished(curve, [], 0)
  {
  }

  lemma NewPeakFinishes(curve: seq<EquityPoint>, spans: seq<Span>, peak: nat, k: nat)
    requires Finished(curve, spans, peak) && AtPeak(curve, k, peak) && k == peak + 1
    requires k < |curve| && curve[k].equity >= curve[peak].equity
    ensures Finished(curve, spans, k)
  {
  }

  lemma EndAtPeak(curve: seq<EquityPoint>, spans: seq<Span>, peak: nat)
    requires Finished(curve, spans, peak) && peak + 1 == |curve|
    ensures IsDecomposition(curve, spans)
  {
  }

  /** Appending the episode still open at the end. */
  lemma LastDecomposes(curve: seq<EquityPoint>, spans: seq<Span>, last: Span)
    requires Finished(curve, spans, last.peak) && IsEpisode(curve, last)
    requires forall i: nat :: i < |curve| && Underwater(curve, i) ==> Covered(spans + [last], |curve|, i)
    ensures IsDecomposition(curve, spans + [last])
  {
    hide IsEpisode, Underwater, Covered;
  }

  lemma EndUnderwater(curve: seq<EquityPoint>, spans: seq<Span>, peak: nat, trough: nat)
    requires Finished(curve, spans, peak) && AtPeak(curve, |curve|, peak) && AtTrough(curve, |curve|, peak, trough)
    ensures IsDecomposition(curve, spans + [Span(peak, trough, None)])
  {
    var last := Span(peak, trough, None);
    var more := spans + [last];
    assert IsEpisode(curve, last);
    forall i: nat | i < |curve| && Underwater(curve, i) ensures Covered(more, |curve|, i) {
      hide IsEpisode, Underwater;
      if i <= peak {
        var l :| 0 <= l < |spans| && spans[l].Interior(|curve|, i);
        assert more[l].Interior(|curve|, i);
      } else {
        assert more[|spans|].Interior(|curve|, i);
      }
    }
    LastDecomposes(curve, spans, last);
  }

  /** The episodes listed are those of a decomposition of the curve, in order. */
  ghost predicate Decomposes(curve: seq<EquityPoint>, episodes: seq<DrawdownEpisode>) {
    exists spans :: IsDecomposition(curve, spans) && Listed(curve, spans, episodes)
  }

  method IdentifyDrawdownEpisodes(curve: seq<EquityPoint>) returns (episodes: seq<DrawdownEpisode>)
    ensures Decomposes(curve, episodes)
  {
    episodes := [];
    ghost var spans: seq<Span> := [];
    assert curve == [] ==> IsDecomposition(curve, spans) && Listed(curve, spans, episodes);
    if curve == [] { return; }
    StartFinished(curve);
    hide IsDecomposition, IsEpisode, Covered, Underwater, Finished, Listed, BuildEpisode;
    var peak, trough, inDrawdown := curve[0], curve[0], false;
    ghost var p: nat, t: nat := 0, 0;
    for k := 0 to |curve|
      invariant p < |curve| && t < |curve| && peak == curve[p] && trough == curve[t]
      invariant if k == 0 then p == 0 && !inDrawdown else AtPeak(curve, k, p) && (inDrawdown <==> p + 1 < k)
      invariant inDrawdown ==> AtTrough(curve, k, p, t)
      invariant Finished(curve, spans, p) && Listed(curve, spans, episodes)
    {
      var point := curve[k];
      if point.equity >= peak.equity {
        if inDrawdown {
          RecoveryFinishes(curve, spans, p, t, k);
          ListedNext(curve, spans, episodes, Span(p, t, Some(k)));
          episodes := episodes + [BuildEpisode(peak, trough, Some(point))];
          spans := spans + [Span(p, t, Some(k))];
          inDrawdown := false;
        } else if k > 0 {
          NewPeakFinishes(curve, spans, p, k);
        }
        peak, trough, p, t := point, point, k, k;
        continue;
      }
      if !inDrawdown {
        inDrawdown := true;
        trough, t := point, k;
      } else if point.equity < trough.equity {
        trough, t := point, k;
      }
    }
    if !inDrawdown {
      EndAtPeak(curve, spans, p);
    } else {
      EndUnderwater(curve, spans, p, t);
      ListedNext(curve, spans, episodes, Span(p, t, None));
      episodes := episodes + [BuildEpisode(peak, trough, None)];
      spans := spans + [Span(p, t, None)];
    }
    assert IsDecomposition(curve, spans) && Listed(curve, spans, episodes);
  }

  // ---------------------------------------------------------------- what the decomposition means

  /** Two episodes with a common interior point are the same episode. */
  lemma EpisodeIsUnique(curve: seq<EquityPoint>, s: Span, t: Span, i: nat)
    requires IsEpisode(curve, s) && IsEpisode(curve, t)
    requires s.Interior(|curve|, i) && t.Interior(|curve|, i)
    ensures s == t
  {
    NotBefore(curve, s, t, i);
    NotBefore(curve, t, s, i);
    NotShorter(curve, s, t);
    NotShorter(curve, t, s);
    assert curve[s.trough].equity == curve[t.trough].equity;
    assert s.trough == t.trough;
  }

  /** An episode's peak is not inside another one. */
  lemma NotBefore(curve: seq<EquityPoint>, s: Span, t: Span, i: nat)
    requires IsEpisode(curve, s) && IsEpisode(curve, t)
    requires s.Interior(|curve|, i) && t.Interior(|curve|, i)
    ensures s.peak >= t.peak
  {
    assert s.peak <= t.peak ==> curve[s.peak].equity <= curve[t.peak].equity;
  }

  lemma NotShorter(curve: seq<EquityPoint>, s: Span, t: Span)
    requires IsEpisode(curve, s) && IsEpisode(curve, t) && s.peak == t.peak
    ensures s.End(|curve|) >= t.End(|curve|)
  {
    assert s.recovery.Some? ==> curve[s.recovery.value].equity >= curve[t.peak].equity;
  }

  /** The points inside some episode are exactly the underwater points, and each is inside exactly one. */
  lemma UnderwaterIsCoveredOnce(curve: seq<EquityPoint>, spans: seq<Span>, i: nat)
    requires IsDecomposition(curve, spans) && i < |curve|
    ensures Underwater(curve, i) <==> Covered(spans, |curve|, i)
    ensures forall k, l ::
              0 <= k < |spans| && 0 <= l < |spans| && spans[k].Interior(|curve|, i) && spans[l].Interior(|curve|, i)
              ==> k == l
  {
    if Covered(spans, |curve|, i) {
      var k :| 0 <= k < |spans| && spans[k].Interior(|curve|, i);
      assert IsEpisode(curve, spans[k]) && curve[spans[k].peak].equity > curve[i].equity;
    }
    hide IsEpisode, Covered, Underwater;
    forall k, l | 0 <= k < |spans| && 0 <= l < |spans|
                  && spans[k].Interior(|curve|, i) && spans[l].Interior(|curve|, i)
      ensures k == l
    {
      assert !(k < l) && !(l < k);
    }
  }

  function Values(curve: seq<EquityPoint>): seq<Money> {
    seq(|curve|, i requires 0 <= i < |curve| => curve[i].equity)
  }

  function Depth(curve: seq<EquityPoint>, s: Span): Money
    requires s.Within(|curve|)
  {
    curve[s.peak].equity - curve[s.trough].equity
  }

  /** A fall between two points is no deeper than the episode that contains its end. */
  lemma FallWithinEpisode(curve: seq<EquityPoint>, s: Span, i: nat, j: nat)
    requires IsEpisode(curve, s) && i <= j && s.Interior(|curve|, j)
    ensures curve[i].equity - curve[j].equity <= Depth(curve, s)
  {
  }

  /** The deepest episode is the maximum drawdown of the curve; without episodes there is no drawdown. */
  lemma DeepestEpisodeIsMaxDrawdown(curve: seq<EquityPoint>, spans: seq<Span>)
    requires IsDecomposition(curve, spans)
    ensures forall k :: 0 <= k < |spans| ==> 0 < Depth(curve, spans[k]) <= MaxDrawdown(Values(curve))
    ensures if spans == [] then MaxDrawdown(Values(curve)) == 0
            else exists k :: 0 <= k < |spans| && Depth(curve, spans[k]) == MaxDrawdown(Values(curve))
  {
    var values := Values(curve);
    MaxDrawdownIsLargestFall(values);
    hide MaxDrawdown;
    forall k | 0 <= k < |spans| ensures 0 < Depth(curve, spans[k]) <= MaxDrawdown(values) {
      assert values[spans[k].peak] - values[spans[k].trough] == Depth(curve, spans[k]);
    }
    if spans != [] { assert 0 < Depth(curve, spans[0]); }
    if MaxDrawdown(values) > 0 {
      var i: nat, j: nat :| FallsBy(values, i, j, MaxDrawdown(values));
      assert curve[i].equity > curve[j].equity && Underwater(curve, j);
      var k :| 0 <= k < |spans| && spans[k].Interior(|curve|, j);
      FallWithinEpisode(curve, spans[k], i, j);
    }
  }

  /** The listed depths, whatever decomposition produced them: none exceeds the maximum drawdown and, unless there
      is no drawdown at all, one attains it. */
  lemma ListedDepths(curve: seq<EquityPoint>, episodes: seq<DrawdownEpisode>)
    requires Decomposes(curve, episodes)
    ensures forall k :: 0 <= k < |episodes| ==> 0 < episodes[k].depth <= MaxDrawdown(Values(curve))
    ensures if episodes == [] then MaxDrawdown(Values(curve)) == 0
            else exists k :: 0 <= k < |episodes| && episodes[k].depth == MaxDrawdown(Values(curve))
  {
    var spans :| IsDecomposition(curve, spans) && Listed(curve, spans, episodes);
    DeepestEpisodeIsMaxDrawdown(curve, spans);
    DepthsOf(curve, spans, episodes);
  }

  lemma DepthsOf(curve: seq<EquityPoint>, spans: seq<Span>, episodes: seq<DrawdownEpisode>)
    requires Listed(curve, spans, episodes)
    ensures |episodes| == |spans|
    ensures forall k :: 0 <= k < |spans| ==> spans[k].Within(|curve|) && episodes[k].depth == Depth(curve, spans[k])
  {
  }

  /** Every point is later than the one before it. */
  predicate Increasing(curve: seq<EquityPoint>) {
    forall i, j :: 0 <= i < j < |curve| ==> curve[i].timestamp < curve[j].timestamp
  }

  predicate TimesPass(e: DrawdownEpisode) {
    e.peakTime < e.troughTime && (e.recoveryTime.Some? ==> e.troughTime < e.recoveryTime.value)
  }

  predicate InTurn(e: DrawdownEpisode, later: DrawdownEpisode) {
    e.recoveryTime.Some? && e.recoveryTime.value <= later.peakTime
  }

  lemma SpanTimes(curve: seq<EquityPoint>, s: Span, e: DrawdownEpisode)
    requires Increasing(curve) && Describes(curve, s, e)
    ensures TimesPass(e)
  {
  }

  lemma SpansInTurn(curve: seq<EquityPoint>, s: Span, e: DrawdownEpisode, t: Span, later: DrawdownEpisode)
    requires Increasing(curve) && Describes(curve, s, e) && Describes(curve, t, later)
    requires s.recovery.Some? && s.recovery.value <= t.peak
    ensures InTurn(e, later)
  {
    var i, j := s.recovery.value, t.peak;
    assert i == j || curve[i].timestamp < curve[j].timestamp;
  }

  /** On a curve in time order, time passes from peak to trough to recovery, and from one episode to the next. */
  lemma TimesAreOrdered(curve: seq<EquityPoint>, episodes: seq<DrawdownEpisode>)
    requires Decomposes(curve, episodes) && Increasing(curve)
    ensures forall k :: 0 <= k < |episodes| ==> TimesPass(episodes[k])
    ensures forall k, l :: 0 <= k < l < |episodes| ==> InTurn(episodes[k], episodes[l])
  {
    var spans :| IsDecomposition(curve, spans) && Listed(curve, spans, episodes);
    hide Describes, Increasing, TimesPass, InTurn, IsEpisode, Covered, Underwater;
    forall k | 0 <= k < |episodes| ensures TimesPass(episodes[k]) {
      SpanTimes(curve, spans[k], episodes[k]);
    }
    forall k, l | 0 <= k < l < |episodes| ensures InTurn(episodes[k], episodes[l]) {
      SpansInTurn(curve, spans[k], episodes[k], spans[l], episodes[l]);
    }
  }
}
