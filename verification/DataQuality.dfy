/** What validation finds, in plain numbers, and therefore what the repository refuses and what it comes to hold. */
module DataQuality {
  import opened Arithmetic
  import opened Market
  import opened HistoricalData
  import opened DataServices
  import opened Sums

  // ---------------------------------------------------------------- the checks in plain numbers

  function VolumeOf(r: Record): int { r.volume }
  function SquareOf(r: Record): int { r.volume * r.volume }

  /** More than five standard deviations from the mean, multiplied out: n * v - T is n deviations from the mean and
      n * Q - T * T is n * n variances, for n records of total volume T and total squared volume Q. */
  predicate Deviates(n: int, v: int, total: int, squares: int) {
    var deviation := n * v - total;
    deviation * deviation > 25 * (n * squares - total * total)
  }

  predicate FarFromMean(records: seq<Record>, i: nat)
    requires i < |records|
  {
    Deviates(|records|, records[i].volume, SumOf(VolumeOf, records), SumOf(SquareOf, records))
  }

  /** Minutes between the candles of an intraday timeframe. */
  function Interval(timeframe: Timeframe): Option<int> {
    match timeframe
    case OneMinute => Some(1)
    case ThreeMinute => Some(3)
    case FiveMinute => Some(5)
    case FifteenMinute => Some(15)
    case ThirtyMinute => Some(30)
    case OneHour => Some(60)
    case OneDay => None
  }

  /** Timestamps that are equal: both naive or both aware, and the same instant. */
  predicate SameTime(a: Stamp, b: Stamp) { a.Aware? == b.Aware? && a.Comparable() == b.Comparable() }

  /** What makes the i-th record an issue of a kind. */
  predicate Offends(records: seq<Record>, timeframe: Timeframe, kind: IssueKind, i: nat)
    requires i < |records|
  {
    var r := records[i];
    match kind
    case DuplicateTimestamp => exists j :: 0 <= j < i && SameTime(records[j].at, r.at)
    case OutOfOrder => i > 0 && r.at.Comparable() < records[i - 1].at.Comparable()
    case NegativePrice => r.open < 0.0 || r.high < 0.0 || r.low < 0.0 || r.close < 0.0
    case NegativeVolume => r.volume < 0
    case HighBelowOpenOrClose => r.high < r.open || r.high < r.close || r.high < r.low
    case LowAboveOpenOrClose => r.low > r.open || r.low > r.close || r.low > r.high
    case TimezoneInconsistent => false
    case MissingCandle =>
      && i > 0 && Interval(timeframe).Some?
      && DateOf(r.at.Comparable()) == DateOf(records[i - 1].at.Comparable())
      && r.at.Comparable() - records[i - 1].at.Comparable() > Interval(timeframe).value * 60_000_000
    case AbnormalPriceMove =>
      && i > 0 && records[i - 1].close > 0.0
      && 5.0 * Abs(r.close - records[i - 1].close) > records[i - 1].close
    case AbnormalVolume => FarFromMean(records, i)
  }

  // ---------------------------------------------------------------- volumes

  lemma {:induction false} VolumeTotalIs(records: seq<Record>)
    ensures VolumeTotal(records) == SumOf(VolumeOf, records) as real
  {
    if records != [] { VolumeTotalIs(records[..|records| - 1]); }
  }

  /** A product the solver is not to look into. */
  function Times(a: real, b: real): real { a * b }

  lemma RealProduct(a: int, b: int)
    ensures Times(a as real, b as real) == (a * b) as real
  {
  }

  /** A sum of squared distances from a mean, multiplied out. */
  function Expanded(n: real, q: real, t: real, mean: real): real { q - 2.0 * mean * t + n * (mean * mean) }

  lemma ExpandedNext(n: real, q: real, t: real, v: real, mean: real)
    ensures Expanded(n, q, t, mean) + Times(v - mean, v - mean) == Expanded(n + 1.0, q + Times(v, v), t + v, mean)
  {
  }

  lemma SquareTotalNext(records: seq<Record>, mean: real)
    requires records != []
    ensures var n := |records| - 1;
            var v := records[n].volume;
            && SquareTotal(records, mean) == SquareTotal(records[..n], mean) + Times(v as real - mean, v as real - mean)
            && SumOf(SquareOf, records) as real == SumOf(SquareOf, records[..n]) as real + Times(v as real, v as real)
  {
    var n := |records| - 1;
    var v := records[n].volume;
    RealProduct(v, v);
    assert SumOf(SquareOf, records) == SumOf(SquareOf, records[..n]) + v * v;
  }

  lemma {:induction false} SquareTotalIs(records: seq<Record>, mean: real)
    ensures SquareTotal(records, mean)
            == Expanded(|records| as real, SumOf(SquareOf, records) as real, SumOf(VolumeOf, records) as real, mean)
  {
    if records != [] {
      var n := |records| - 1;
      SquareTotalIs(records[..n], mean);
      SquareTotalNext(records, mean);
      hide SquareTotal, Times, Expanded;
      ExpandedNext(n as real, SumOf(SquareOf, records[..n]) as real, SumOf(VolumeOf, records[..n]) as real,
                   records[n].volume as real, mean);
    }
  }

  /** n * n variances. */
  lemma VarianceIs(n: real, q: real, t: real, mean: real, squares: real, variance: real)
    requires n > 0.0 && Times(mean, n) == t && Times(variance, n) == squares
    requires squares == Expanded(n, q, t, mean)
    ensures Times(Times(n, n), variance) == Times(n, q) - Times(t, t)
  {
    assert n * (n * (mean * mean)) == (mean * n) * (mean * n);
    assert n * (2.0 * mean * t) == 2.0 * (mean * n) * t;
    assert n * n * variance == n * (variance * n);
  }

  lemma Compare(factor: real, square: real, variance: real)
    requires factor > 0.0
    ensures square > 25.0 * variance <==> Times(factor, square) > 25.0 * Times(factor, variance)
  {
    var difference := square - 25.0 * variance;
    SignKept(factor, difference);
    assert Times(factor, difference) == Times(factor, square) - 25.0 * Times(factor, variance);
  }

  lemma SignKept(factor: real, x: real)
    requires factor > 0.0
    ensures x > 0.0 <==> Times(factor, x) > 0.0
  {
  }

  lemma SquareScaled(n: real, x: real)
    ensures Times(Times(n, x), Times(n, x)) == Times(Times(n, n), Times(x, x))
  {
  }

  lemma DeviationScaled(n: real, v: real, mean: real)
    ensures Times(n, v) - Times(mean, n) == Times(n, v - mean)
  {
  }

  lemma ScaledOutlier(n: real, v: real, mean: real, t: real, variance: real)
    requires n > 0.0 && Times(mean, n) == t
    ensures Times(v - mean, v - mean) > 25.0 * variance
            <==> Times(Times(n, v) - t, Times(n, v) - t) > 25.0 * Times(Times(n, n), variance)
  {
    hide Times;
    DeviationScaled(n, v, mean);
    SquareScaled(n, v - mean);
    SignKept(n, n);
    Compare(Times(n, n), Times(v - mean, v - mean), variance);
  }

  lemma MeansAre(records: seq<Record>)
    requires records != []
    ensures Times(MeanVolume(records), |records| as real) == VolumeTotal(records)
    ensures Times(VolumeVariance(records), |records| as real) == SquareTotal(records, MeanVolume(records))
  {
    Divided(VolumeTotal(records), |records| as real);
    Divided(SquareTotal(records, MeanVolume(records)), |records| as real);
    hide VolumeTotal, SquareTotal;
  }

  lemma OutlierIs(mean: real, variance: real, r: Record)
    ensures Outlier(mean, variance, r)
            <==> Times(r.volume as real - mean, r.volume as real - mean) > 25.0 * variance
  {
  }

  lemma DeviatesInReals(n: int, v: int, total: int, squares: int)
    ensures var deviation := Times(n as real, v as real) - total as real;
            Times(deviation, deviation)
              > 25.0 * (Times(n as real, squares as real) - Times(total as real, total as real))
            <==> Deviates(n, v, total, squares)
  {
    var d := n * v - total;
    RealProduct(n, v);
    RealProduct(n, squares);
    RealProduct(total, total);
    RealProduct(d, d);
    InReals(n * squares, total * total, d * d);
    assert Deviates(n, v, total, squares) <==> d * d > 25 * (n * squares - total * total);
    hide Times, Deviates;
  }

  lemma InReals(a: int, b: int, c: int)
    ensures c > 25 * (a - b) <==> c as real > 25.0 * (a as real - b as real)
  {
  }

  /** The comparison by squares of the validator, in whole numbers. */
  lemma FarIff(records: seq<Record>, i: nat)
    requires i < |records|
    ensures Outlier(MeanVolume(records), VolumeVariance(records), records[i]) <==> FarFromMean(records, i)
  {
    var n, total, squares := |records|, SumOf(VolumeOf, records), SumOf(SquareOf, records);
    var mean, variance, v := MeanVolume(records), VolumeVariance(records), records[i].volume;
    VolumeTotalIs(records);
    SquareTotalIs(records, mean);
    MeansAre(records);
    OutlierIs(mean, variance, records[i]);
    hide Outlier, VolumeVariance, MeanVolume, SquareTotal, VolumeTotal, SumOf, Times, Deviates,
         Expanded;
    VarianceIs(n as real, squares as real, total as real, mean, SquareTotal(records, mean), variance);
    ScaledOutlier(n as real, v as real, mean, total as real, variance);
    DeviatesInReals(n, v, total, squares);
  }

  lemma {:induction false} SquareAtLeast(records: seq<Record>, mean: real, i: nat)
    requires i < |records|
    ensures 0.0 <= Times(records[i].volume as real - mean, records[i].volume as real - mean)
                <= SquareTotal(records, mean)
  {
    var n := |records| - 1;
    SquareTotalNext(records, mean);
    SquareNonNegative(records[n].volume as real - mean);
    if i < n {
      SquareAtLeast(records[..n], mean, i);
    } else if n > 0 {
      SquareAtLeast(records[..n], mean, 0);
    }
    hide Times;
  }

  lemma SquareNonNegative(x: real)
    ensures Times(x, x) >= 0.0
  {
  }

  /** Volumes that do not vary have no outlier. */
  lemma NoVariance(records: seq<Record>, i: nat)
    requires i < |records| && (|records| == 1 || VolumeVariance(records) == 0.0)
    ensures !Outlier(MeanVolume(records), VolumeVariance(records), records[i])
  {
    var mean, variance := MeanVolume(records), VolumeVariance(records);
    OutlierIs(mean, variance, records[i]);
    SquareAtLeast(records, mean, i);
    if |records| == 1 {
      OnlyVolume(records);
    } else {
      MeansAre(records);
      assert Times(0.0, |records| as real) == 0.0;
      hide MeanVolume, VolumeVariance, SquareTotal, Outlier, Times;
    }
  }

  lemma OnlyVolume(records: seq<Record>)
    requires |records| == 1
    ensures MeanVolume(records) == records[0].volume as real
    ensures VolumeVariance(records) >= 0.0
  {
    assert VolumeTotal(records) == VolumeTotal([]) + records[0].volume as real;
    SquareAtLeast(records, MeanVolume(records), 0);
  }

  // ---------------------------------------------------------------- the report, issue by issue

  /** The issues a detector finds: one for each record that offends in one of its kinds. */
  ghost predicate Finds(part: seq<Issue>, records: seq<Record>, timeframe: Timeframe, kinds: set<IssueKind>) {
    forall x :: x in part <==> x.kind in kinds && Due(records, timeframe, x)
  }

  predicate Due(records: seq<Record>, timeframe: Timeframe, x: Issue) {
    exists i :: 0 <= i < |records| && x.at == Some(records[i].at) && Offends(records, timeframe, x.kind, i)
  }

  lemma {:induction false} PerRecordMembers(check: Record -> seq<Issue>, records: seq<Record>, x: Issue)
    ensures x in PerRecord(check, records) <==> exists i :: 0 <= i < |records| && x in check(records[i])
  {
    if records != [] {
      var n := |records| - 1;
      PerRecordMembers(check, records[..n], x);
      assert forall i :: 0 <= i < n ==> records[..n][i] == records[i];
      if x in PerRecord(check, records[..n]) {
        var i :| 0 <= i < n && x in check(records[..n][i]);
        assert x in check(records[i]);
      }
    }
  }

  lemma {:induction false} PerPairMembers(check: (Record, Record) -> seq<Issue>, records: seq<Record>, x: Issue)
    ensures x in PerPair(check, records) <==> exists i :: 0 < i < |records| && x in check(records[i - 1], records[i])
  {
    if |records| >= 2 {
      var n := |records| - 1;
      var front := records[..n];
      PerPairMembers(check, front, x);
      if x in PerPair(check, front) {
        var i :| 0 < i < n && x in check(front[i - 1], front[i]);
        assert x in check(records[i - 1], records[i]);
      } else {
        forall i | 0 < i < n ensures x !in check(records[i - 1], records[i]) {
          assert x !in check(front[i - 1], front[i]);
        }
      }
    }
  }

  lemma {:induction false} DuplicatesMembers(records: seq<Record>, x: Issue)
    ensures x in Duplicates(records) <==>
              exists i :: 0 <= i < |records| && x == Issue(DuplicateTimestamp, Some(records[i].at))
                && records[i].at.ToMoment() in MomentsOf(records[..i])
  {
    if records != [] {
      var n := |records| - 1;
      var front := records[..n];
      DuplicatesMembers(front, x);
      hide MomentsOf;
      assert forall i :: 0 <= i < n ==> front[i] == records[i] && front[..i] == records[..i];
      if x in Duplicates(front) {
        var i :| 0 <= i < n && x == Issue(DuplicateTimestamp, Some(front[i].at))
          && front[i].at.ToMoment() in MomentsOf(front[..i]);
        assert records[i].at.ToMoment() in MomentsOf(records[..i]);
      }
    }
  }

  lemma DuplicatesFind(records: seq<Record>, timeframe: Timeframe)
    ensures Finds(Duplicates(records), records, timeframe, {DuplicateTimestamp})
  {
    forall x ensures x in Duplicates(records) <==> x.kind in {DuplicateTimestamp} && Due(records, timeframe, x) {
      DuplicatesMembers(records, x);
      hide Duplicates;
      forall i | 0 <= i < |records|
        ensures Offends(records, timeframe, DuplicateTimestamp, i)
                <==> records[i].at.ToMoment() in MomentsOf(records[..i])
      {
      }
    }
  }

  /** A check of single records that reports exactly their offences. */
  lemma PerRecordFinds(check: Record -> seq<Issue>, records: seq<Record>, timeframe: Timeframe, kinds: set<IssueKind>)
    requires forall i: nat, x :: i < |records| ==>
               (x in check(records[i])
                <==> x.kind in kinds && x.at == Some(records[i].at) && Offends(records, timeframe, x.kind, i))
    ensures Finds(PerRecord(check, records), records, timeframe, kinds)
  {
    hide Offends;
    forall x ensures x in PerRecord(check, records) <==> x.kind in kinds && Due(records, timeframe, x) {
      PerRecordMembers(check, records, x);
      hide PerRecord;
    }
  }

  /** A check of neighbours that reports exactly the offences of the second ones; the first record has none. */
  lemma PerPairFinds(check: (Record, Record) -> seq<Issue>, records: seq<Record>, timeframe: Timeframe,
                     kinds: set<IssueKind>)
    requires forall kind :: kind in kinds && records != [] ==> !Offends(records, timeframe, kind, 0)
    requires forall i: nat, x :: 0 < i < |records| ==>
               (x in check(records[i - 1], records[i])
                <==> x.kind in kinds && x.at == Some(records[i].at) && Offends(records, timeframe, x.kind, i))
    ensures Finds(PerPair(check, records), records, timeframe, kinds)
  {
    hide Offends;
    forall x ensures x in PerPair(check, records) <==> x.kind in kinds && Due(records, timeframe, x) {
      PerPairMembers(check, records, x);
      hide PerPair;
      if x.kind in kinds && Due(records, timeframe, x) {
        var i :| 0 <= i < |records| && x.at == Some(records[i].at) && Offends(records, timeframe, x.kind, i);
        assert x in check(records[i - 1], records[i]);
      }
    }
  }

  lemma DisorderFinds(records: seq<Record>, timeframe: Timeframe)
    ensures Finds(PerPair(Disorder, records), records, timeframe, {OutOfOrder})
  {
    hide PerPair;
    PerPairFinds(Disorder, records, timeframe, {OutOfOrder});
  }

  lemma NegativesFind(records: seq<Record>, timeframe: Timeframe)
    ensures Finds(PerRecord(Negatives, records), records, timeframe, {NegativePrice, NegativeVolume})
  {
    hide PerRecord;
    PerRecordFinds(Negatives, records, timeframe, {NegativePrice, NegativeVolume});
  }

  lemma InconsistenciesFind(records: seq<Record>, timeframe: Timeframe)
    ensures Finds(PerRecord(Inconsistencies, records), records, timeframe, {HighBelowOpenOrClose, LowAboveOpenOrClose})
  {
    hide PerRecord;
    PerRecordFinds(Inconsistencies, records, timeframe, {HighBelowOpenOrClose, LowAboveOpenOrClose});
  }

  lemma MissingFinds(records: seq<Record>, timeframe: Timeframe)
    ensures Finds(PerPair(Missing(timeframe), records), records, timeframe, {MissingCandle})
  {
    hide PerPair;
    PerPairFinds(Missing(timeframe), records, timeframe, {MissingCandle});
  }

  /** A move of more than twenty percent is one of more than a fifth; a price of zero or less has none. */
  lemma JumpIff(before: Record, r: Record)
    ensures Jump(before, r) <==> before.close > 0.0 && 5.0 * Abs(r.close - before.close) > before.close
  {
    if before.close != 0.0 { MoveIff(Abs(r.close - before.close), before.close); }
  }

  lemma MoveIff(move: real, price: real)
    requires price != 0.0 && move >= 0.0
    ensures move / price * 100.0 > 20.0 <==> price > 0.0 && 5.0 * move > price
  {
    Divided(move, price);
    if price > 0.0 {
      if move / price * 100.0 > 20.0 {
        MulPositive(5.0 * (move / price) - 1.0, price);
      } else {
        MulMonotone(5.0 * (move / price), 1.0, price);
      }
    } else if move / price > 0.0 {
      MulPositive(move / price, -price);
    }
  }

  lemma JumpsFind(records: seq<Record>, timeframe: Timeframe)
    ensures Finds(PerPair(Jumps, records), records, timeframe, {AbnormalPriceMove})
  {
    hide PerPair, Abs;
    forall i | 0 < i < |records|
      ensures Jump(records[i - 1], records[i]) <==> Offends(records, timeframe, AbnormalPriceMove, i)
    {
      JumpIff(records[i - 1], records[i]);
    }
    hide Jump;
    PerPairFinds(Jumps, records, timeframe, {AbnormalPriceMove});
  }

  lemma VolumesFind(records: seq<Record>, timeframe: Timeframe)
    ensures Finds(VolumeIssues(records), records, timeframe, {AbnormalVolume})
  {
    hide FarFromMean, Outlier, MeanVolume, VolumeVariance, PerRecord;
    forall x ensures x in VolumeIssues(records) <==> x.kind in {AbnormalVolume} && Due(records, timeframe, x) {
      forall i: nat | i < |records|
        ensures Outlier(MeanVolume(records), VolumeVariance(records), records[i])
                <==> Offends(records, timeframe, AbnormalVolume, i)
      {
        FarIff(records, i);
      }
      if |records| < 2 || VolumeVariance(records) == 0.0 {
        forall i: nat | i < |records| ensures !Offends(records, timeframe, AbnormalVolume, i) {
          NoVariance(records, i);
        }
      } else {
        var check := Outliers(MeanVolume(records), VolumeVariance(records));
        PerRecordMembers(check, records, x);
        hide Offends;
        if x.kind == AbnormalVolume && Due(records, timeframe, x) {
          var i :| 0 <= i < |records| && x.at == Some(records[i].at) && Offends(records, timeframe, x.kind, i);
          assert x in check(records[i]);
        }
      }
    }
  }

  /** The report holds an issue of a kind at a timestamp exactly when a record of that timestamp offends in that way,
      and the issue without a timestamp exactly when the UTC offsets differ. */
  lemma ReportIs(records: seq<Record>, timeframe: Timeframe, x: Issue)
    ensures x in Report(records, timeframe) <==>
              Due(records, timeframe, x) || (x == Issue(TimezoneInconsistent, None) && !OneOffset(records))
  {
    DuplicatesFind(records, timeframe);
    DisorderFinds(records, timeframe);
    NegativesFind(records, timeframe);
    InconsistenciesFind(records, timeframe);
    MissingFinds(records, timeframe);
    JumpsFind(records, timeframe);
    VolumesFind(records, timeframe);
    OneOffsetIff(records);
    TimezoneNeverDue(records, timeframe, x);
    hide Due, Duplicates, PerPair, PerRecord, VolumeIssues, OneOffset, OffsetsOf;
    assert x in TimezoneIssues(records) <==> x == Issue(TimezoneInconsistent, None) && !OneOffset(records);
    hide TimezoneIssues;
  }

  lemma TimezoneNeverDue(records: seq<Record>, timeframe: Timeframe, x: Issue)
    ensures Due(records, timeframe, x) ==> x.kind != TimezoneInconsistent
  {
  }

  /** Data of one UTC offset in which no record offends in any way. */
  ghost predicate Sound(records: seq<Record>, timeframe: Timeframe) {
    && OneOffset(records)
    && forall i: nat, kind :: i < |records| ==> !Offends(records, timeframe, kind, i)
  }

  /** A report is clean exactly on sound data, and a sound dataset is already in order and never mixed. */
  lemma CleanIsSound(records: seq<Record>, timeframe: Timeframe)
    ensures Report(records, timeframe) == [] <==> Sound(records, timeframe)
    ensures Sound(records, timeframe) ==> !Mixed(records) && SortByTime(records) == records
  {
    hide Report, OneOffset, Offends, SortByTime, Mixed;
    if Report(records, timeframe) == [] {
      CleanIsVerbatim(records, timeframe);
      ReportIs(records, timeframe, Issue(TimezoneInconsistent, None));
      forall i: nat, kind | i < |records| ensures !Offends(records, timeframe, kind, i) {
        ReportIs(records, timeframe, Issue(kind, Some(records[i].at)));
      }
    } else {
      ReportIs(records, timeframe, Report(records, timeframe)[0]);
    }
  }

  // ---------------------------------------------------------------- what the repository refuses

  /** The records an operation would have a key hold. */
  function Offered(stores: Stores, op: Operation): seq<Record>
    requires op.Import? || op.Append?
  {
    var key := op.instrument.ToKey();
    if op.Append? && key in stores.data then stores.data[key] + op.records else op.records
  }

  /** Naive and aware timestamps in one batch. */
  predicate Unsortable(records: seq<Record>) {
    exists r, s :: r in records && s in records && r.at.Naive? && s.at.Aware?
  }

  /** What an import or an append does to the stores: rejected, with the issues of a report, exactly when it is not
      forced and the batch is not sound; refused by the sort exactly when it is forced and cannot be ordered; stored
      otherwise, in time order, with its metadata, verbatim unless it was forced.  Nothing else ever changes. */
  ghost predicate StoredRightly(before: Stores, op: Operation, after: Stores, outcome: StoreOutcome)
    requires op.Import? || op.Append?
  {
    var key := op.instrument.ToKey();
    var batch := Offered(before, op);
    var sound := Sound(batch, key.timeframe);
    && (outcome.Rejected? <==> !op.force && !sound)
    && (outcome.Unorderable? <==> op.force && Unsortable(batch))
    && (!outcome.Stored? ==> after == before)
    && (outcome.Stored? ==>
          && key in after.data
          && after == Stores(before.data[key := after.data[key]], before.instruments[key := op.instrument])
          && Ordered(after.data[key]) && multiset(after.data[key]) == multiset(batch)
          && (sound ==> after.data[key] == batch))
    && (!outcome.Unorderable? ==> (outcome.issues == [] <==> sound))
  }

  lemma StoreIsRight(stores: Stores, op: Operation)
    requires op.Import? || op.Append?
    ensures var (next, reply) := Direct(stores, op);
            reply.StoreReply? && StoredRightly(stores, op, next, reply.store)
  {
    var key, batch := op.instrument.ToKey(), Offered(stores, op);
    DirectIs(stores, op);
    hide Offered, Direct, StoreInto, Sound, Ordered, Unsortable;
    StoreIntoIs(stores.data, key, batch, op.force);
  }

  lemma DirectIs(stores: Stores, op: Operation)
    requires op.Import? || op.Append?
    ensures var key := op.instrument.ToKey();
            var (data, outcome) := StoreInto(stores.data, key, Offered(stores, op), op.force);
            Direct(stores, op)
            == (Stores(data, if outcome.Stored? then stores.instruments[key := op.instrument] else stores.instruments),
                StoreReply(outcome))
  {
    hide StoreInto;
    assert [] + op.records == op.records;
    assert Batch(stores.data, op) == Offered(stores, op);
  }

  lemma StoreIntoIs(data: Data, key: Key, batch: seq<Record>, force: bool)
    ensures var (next, outcome) := StoreInto(data, key, batch, force);
            var sound := Sound(batch, key.timeframe);
            && (outcome.Rejected? <==> !force && !sound)
            && (outcome.Unorderable? <==> force && Unsortable(batch))
            && (!outcome.Stored? ==> next == data)
            && (outcome.Stored? ==>
                  && key in next && next == data[key := next[key]]
                  && Ordered(next[key]) && multiset(next[key]) == multiset(batch)
                  && (sound ==> next[key] == batch))
            && (!outcome.Unorderable? ==> (outcome.issues == [] <==> sound))
  {
    CleanIsSound(batch, key.timeframe);
    MixedIff(batch);
    StoredInOrder(batch);
    hide Sound, Report, SortByTime, Mixed, Ordered;
  }

  /** Reading changes nothing. */
  lemma ReadsKeepStores(stores: Stores, op: Operation)
    requires !op.Import? && !op.Append?
    ensures Direct(stores, op).0 == stores
  {
  }

  // ---------------------------------------------------------------- over every sequence without force

  predicate Unforced(ops: seq<Operation>) {
    forall k :: 0 <= k < |ops| && (ops[k].Import? || ops[k].Append?) ==> !ops[k].force
  }

  /** What a key should hold after one more operation: a sound import, or what it held with a sound append. */
  ghost function AcceptedNext(before: Option<seq<Record>>, op: Operation, key: Key): Option<seq<Record>> {
    if !(op.Import? || op.Append?) || op.instrument.ToKey() != key then before
    else
      var batch := if op.Append? && before.Some? then before.value + op.records else op.records;
      if Sound(batch, key.timeframe) then Some(batch) else before
  }

  /** The last sound import and every later append that kept it sound. */
  ghost function Accepted(ops: seq<Operation>, key: Key): Option<seq<Record>> {
    if ops == [] then None else AcceptedNext(Accepted(ops[..|ops| - 1], key), ops[|ops| - 1], key)
  }

  ghost predicate Holds(data: Data, key: Key, accepted: Option<seq<Record>>) {
    if key in data then accepted == Some(data[key]) && Sound(data[key], key.timeframe) else accepted == None
  }

  lemma OperationHolds(stores: Stores, op: Operation, key: Key, accepted: Option<seq<Record>>)
    requires Holds(stores.data, key, accepted)
    requires op.Import? || op.Append? ==> !op.force
    ensures Holds(Direct(stores, op).0.data, key, AcceptedNext(accepted, op, key))
  {
    hide Sound, Direct, Ordered, Unsortable;
    if op.Import? || op.Append? {
      StoreIsRight(stores, op);
    } else {
      ReadsKeepStores(stores, op);
    }
  }

  /** Over every sequence of operations without a forced import or append: every key holds exactly the records accepted
      for it, in the order they came, and they are sound. */
  lemma {:induction false} OnlySoundDataIsStored(ops: seq<Operation>, key: Key)
    requires Unforced(ops)
    ensures Holds(Served(ops).stores.data, key, Accepted(ops, key))
  {
    CacheIsInvisible(ops, ClearCache);
    if ops != [] {
      var n := |ops| - 1;
      OnlySoundDataIsStored(ops[..n], key);
      CacheIsInvisible(ops[..n], ops[n]);
      hide Holds, Direct, Served, Serve, AcceptedNext, Coherent, WellStored;
      OperationHolds(Directed(ops[..n]), ops[n], key, Accepted(ops[..n], key));
    }
  }
}
