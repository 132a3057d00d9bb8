/** Historical records, their time order and the validation of a dataset. */
module HistoricalData {
  import opened Arithmetic
  import opened Market
  import opened Sorting

  /** A timestamp: naive, or aware with its UTC offset.  Aware timestamps are equal when their instants are. */
  datatype Stamp = Naive(local: int) | Aware(utc: int, offset: int)
  {
    /** The value timestamps are ordered by, naive ones by their own reading. */
    function Comparable(): int { if Naive? then local else utc }

    function ToMoment(): Moment { Moment(Aware?, Comparable()) }

    function UtcOffset(): Option<int> { if Naive? then None else Some(offset) }
  }

  /** What equality of timestamps sees of them. */
  datatype Moment = Moment(aware: bool, instant: int)

  datatype Record = Record(at: Stamp, open: real, high: real, low: real, close: real, volume: int)

  datatype Timeframe = OneMinute | ThreeMinute | FiveMinute | FifteenMinute | ThirtyMinute | OneHour | OneDay
  {
    function Minutes(): Option<int> {
      match this
      case OneMinute => Some(1)
      case ThreeMinute => Some(3)
      case FiveMinute => Some(5)
      case FifteenMinute => Some(15)
      case ThirtyMinute => Some(30)
      case OneHour => Some(60)
      case OneDay => None
    }
  }

  datatype Key = Key(symbol: string, exchange: string, timeframe: Timeframe)

  // ---------------------------------------------------------------- order

  predicate Ordered(records: seq<Record>) {
    forall i, j :: 0 <= i < j < |records| ==> records[i].at.Comparable() <= records[j].at.Comparable()
  }

  predicate StrictlyOrdered(records: seq<Record>) {
    forall i, j :: 0 <= i < j < |records| ==> records[i].at.Comparable() < records[j].at.Comparable()
  }

  /** Naive and aware timestamps side by side, which Python refuses to order. */
  predicate Mixed(records: seq<Record>) {
    exists i, j :: 0 <= i < |records| && 0 <= j < |records| && records[i].at.Naive? && records[j].at.Aware?
  }

  function TimeOf(r: Record): real { r.at.Comparable() as real }

  /** The records as they are stored. */
  function SortByTime(records: seq<Record>): seq<Record> { SortBy(TimeOf, records) }

  lemma OrderedIsOrderedBy(records: seq<Record>)
    ensures Ordered(records) <==> OrderedBy(TimeOf, records)
  {
    if OrderedBy(TimeOf, records) {
      forall i, j | 0 <= i < j < |records| ensures records[i].at.Comparable() <= records[j].at.Comparable() {
        assert TimeOf(records[i]) <= TimeOf(records[j]);
      }
    }
  }

  /** The stored records are in time order, and they are the records that came. */
  lemma StoredInOrder(records: seq<Record>)
    ensures Ordered(SortByTime(records))
    ensures multiset(SortByTime(records)) == multiset(records)
  {
    SortOrders(TimeOf, records);
    OrderedIsOrderedBy(SortByTime(records));
    SortPermutes(TimeOf, records);
  }

  // ---------------------------------------------------------------- validation

  datatype IssueKind =
    | DuplicateTimestamp
    | OutOfOrder
    | NegativePrice
    | NegativeVolume
    | HighBelowOpenOrClose
    | LowAboveOpenOrClose
    | TimezoneInconsistent
    | MissingCandle
    | AbnormalPriceMove
    | AbnormalVolume

  datatype Issue = Issue(kind: IssueKind, at: Option<Stamp>)

  /** The issue of a kind at a record, when a condition holds. */
  function IssueIf(condition: bool, kind: IssueKind, r: Record): seq<Issue> {
    if condition then [Issue(kind, Some(r.at))] else []
  }

  /** The issues of each record, in order. */
  function PerRecord(check: Record -> seq<Issue>, records: seq<Record>): seq<Issue> {
    if records == [] then []
    else
      var n := |records| - 1;
      PerRecord(check, records[..n]) + check(records[n])
  }

  /** The issues of each record and the one before it, in order. */
  function PerPair(check: (Record, Record) -> seq<Issue>, records: seq<Record>): seq<Issue> {
    if |records| < 2 then []
    else
      var n := |records| - 1;
      PerPair(check, records[..n]) + check(records[n - 1], records[n])
  }

  function MomentsOf(records: seq<Record>): set<Moment> {
    set i | 0 <= i < |records| :: records[i].at.ToMoment()
  }

  function Duplicates(records: seq<Record>): seq<Issue> {
    if records == [] then []
    else
      var n := |records| - 1;
      Duplicates(records[..n])
      + IssueIf(records[n].at.ToMoment() in MomentsOf(records[..n]), DuplicateTimestamp, records[n])
  }

  function Disorder(before: Record, r: Record): seq<Issue> {
    IssueIf(r.at.Comparable() < before.at.Comparable(), OutOfOrder, r)
  }

  function Negatives(r: Record): seq<Issue> {
    IssueIf(r.open < 0.0 || r.high < 0.0 || r.low < 0.0 || r.close < 0.0, NegativePrice, r)
    + IssueIf(r.volume < 0, NegativeVolume, r)
  }

  function Inconsistencies(r: Record): seq<Issue> {
    IssueIf(r.high < r.open || r.high < r.close || r.high < r.low, HighBelowOpenOrClose, r)
    + IssueIf(r.low > r.open || r.low > r.close || r.low > r.high, LowAboveOpenOrClose, r)
  }

  function OffsetsOf(records: seq<Record>): set<Option<int>> {
    set i | 0 <= i < |records| :: records[i].at.UtcOffset()
  }

  function TimezoneIssues(records: seq<Record>): seq<Issue> {
    if |OffsetsOf(records)| > 1 then [Issue(TimezoneInconsistent, None)] else []
  }

  /** A gap within one date longer than the timeframe; daily data has none. */
  predicate Gap(before: Record, r: Record, timeframe: Timeframe) {
    && timeframe.Minutes().Some?
    && DateOf(before.at.Comparable()) == DateOf(r.at.Comparable())
    && r.at.Comparable() - before.at.Comparable() > timeframe.Minutes().value * MICROS_PER_MINUTE
  }

  function Missing(timeframe: Timeframe): (Record, Record) -> seq<Issue> {
    (before, r) => IssueIf(Gap(before, r, timeframe), MissingCandle, r)
  }

  const MOVE_LIMIT: real := 20.0
  const Z_LIMIT: real := 5.0

  /** A close more than the limit away from the previous one, in percent of the previous one. */
  predicate Jump(before: Record, r: Record) {
    before.close != 0.0 && Abs(r.close - before.close) / before.close * 100.0 > MOVE_LIMIT
  }

  function Jumps(before: Record, r: Record): seq<Issue> { IssueIf(Jump(before, r), AbnormalPriceMove, r) }

  function VolumeTotal(records: seq<Record>): real {
    if records == [] then 0.0
    else VolumeTotal(records[..|records| - 1]) + records[|records| - 1].volume as real
  }

  function SquareTotal(records: seq<Record>, mean: real): real {
    if records == [] then 0.0
    else
      var d := records[|records| - 1].volume as real - mean;
      SquareTotal(records[..|records| - 1], mean) + d * d
  }

  function MeanVolume(records: seq<Record>): real
    requires records != []
  {
    VolumeTotal(records) / |records| as real
  }

  function VolumeVariance(records: seq<Record>): real
    requires records != []
  {
    SquareTotal(records, MeanVolume(records)) / |records| as real
  }

  /** More than the limit of standard deviations from the mean; compared by squares, so that no root is taken. */
  predicate Outlier(mean: real, variance: real, r: Record) {
    var d := r.volume as real - mean;
    d * d > Z_LIMIT * Z_LIMIT * variance
  }

  function Outliers(mean: real, variance: real): Record -> seq<Issue> {
    r => IssueIf(Outlier(mean, variance, r), AbnormalVolume, r)
  }

  function VolumeIssues(records: seq<Record>): seq<Issue> {
    if |records| < 2 || VolumeVariance(records) == 0.0 then []
    else PerRecord(Outliers(MeanVolume(records), VolumeVariance(records)), records)
  }

  function Report(records: seq<Record>, timeframe: Timeframe): seq<Issue> {
    Duplicates(records) + PerPair(Disorder, records) + PerRecord(Negatives, records)
    + PerRecord(Inconsistencies, records) + TimezoneIssues(records) + PerPair(Missing(timeframe), records)
    + PerPair(Jumps, records) + VolumeIssues(records)
  }

  // ---------------------------------------------------------------- the detectors' loops

  method DetectDuplicates(records: seq<Record>) returns (issues: seq<Issue>)
    ensures issues == Duplicates(records)
  {
    var seen: set<Moment> := {};
    issues := [];
    for i := 0 to |records|
      invariant seen == MomentsOf(records[..i]) && issues == Duplicates(records[..i])
    {
      var at := records[i].at;
      assert records[..i + 1][..i] == records[..i];
      if at.ToMoment() in seen { issues := issues + [Issue(DuplicateTimestamp, Some(at))]; }
      seen := seen + {at.ToMoment()};
      MomentsGrow(records, i);
    }
    assert records[..|records|] == records;
  }

  lemma MomentsGrow(records: seq<Record>, i: nat)
    requires i < |records|
    ensures MomentsOf(records[..i + 1]) == MomentsOf(records[..i]) + {records[i].at.ToMoment()}
  {
  }

  method DetectOutOfOrder(records: seq<Record>) returns (issues: seq<Issue>)
    ensures issues == PerPair(Disorder, records)
  {
    issues := [];
    if records == [] { return; }
    for i := 1 to |records|
      invariant issues == PerPair(Disorder, records[..i])
    {
      assert records[..i + 1][..i] == records[..i];
      if records[i].at.Comparable() < records[i - 1].at.Comparable() {
        issues := issues + [Issue(OutOfOrder, Some(records[i].at))];
      }
    }
    assert records[..|records|] == records;
  }

  method DetectNegatives(records: seq<Record>) returns (issues: seq<Issue>)
    ensures issues == PerRecord(Negatives, records)
  {
    issues := [];
    for i := 0 to |records|
      invariant issues == PerRecord(Negatives, records[..i])
    {
      assert records[..i + 1][..i] == records[..i];
      var r := records[i];
      if r.open < 0.0 || r.high < 0.0 || r.low < 0.0 || r.close < 0.0 {
        issues := issues + [Issue(NegativePrice, Some(r.at))];
      }
      if r.volume < 0 { issues := issues + [Issue(NegativeVolume, Some(r.at))]; }
    }
    assert records[..|records|] == records;
  }

  method DetectInconsistencies(records: seq<Record>) returns (issues: seq<Issue>)
    ensures issues == PerRecord(Inconsistencies, records)
  {
    issues := [];
    for i := 0 to |records|
      invariant issues == PerRecord(Inconsistencies, records[..i])
    {
      assert records[..i + 1][..i] == records[..i];
      var r := records[i];
      if r.high < r.open || r.high < r.close || r.high < r.low {
        issues := issues + [Issue(HighBelowOpenOrClose, Some(r.at))];
      }
      if r.low > r.open || r.low > r.close || r.low > r.high {
        issues := issues + [Issue(LowAboveOpenOrClose, Some(r.at))];
      }
    }
    assert records[..|records|] == records;
  }

  method DetectMissing(records: seq<Record>, timeframe: Timeframe) returns (issues: seq<Issue>)
    ensures issues == PerPair(Missing(timeframe), records)
  {
    issues := [];
    var minutes := timeframe.Minutes();
    if records == [] { return; }
    if minutes.None? {
      NoneMissing(records, timeframe);
      return;
    }
    for i := 1 to |records|
      invariant issues == PerPair(Missing(timeframe), records[..i])
    {
      assert records[..i + 1][..i] == records[..i];
      if DateOf(records[i - 1].at.Comparable()) != DateOf(records[i].at.Comparable()) { continue; }
      var gap := records[i].at.Comparable() - records[i - 1].at.Comparable();
      if gap > minutes.value * MICROS_PER_MINUTE { issues := issues + [Issue(MissingCandle, Some(records[i].at))]; }
    }
    assert records[..|records|] == records;
  }

  lemma {:induction false} NoneMissing(records: seq<Record>, timeframe: Timeframe)
    requires timeframe.Minutes().None?
    ensures PerPair(Missing(timeframe), records) == []
  {
    if |records| >= 2 { NoneMissing(records[..|records| - 1], timeframe); }
  }

  method DetectJumps(records: seq<Record>) returns (issues: seq<Issue>)
    ensures issues == PerPair(Jumps, records)
  {
    issues := [];
    if records == [] { return; }
    for i := 1 to |records|
      invariant issues == PerPair(Jumps, records[..i])
    {
      assert records[..i + 1][..i] == records[..i];
      var previous := records[i - 1].close;
      if previous == 0.0 { continue; }
      if Abs(records[i].close - previous) / previous * 100.0 > MOVE_LIMIT {
        issues := issues + [Issue(AbnormalPriceMove, Some(records[i].at))];
      }
    }
    assert records[..|records|] == records;
  }

  method DetectOutliers(records: seq<Record>) returns (issues: seq<Issue>)
    ensures issues == VolumeIssues(records)
  {
    issues := [];
    if |records| < 2 { return; }
    var mean, variance := MeanVolume(records), VolumeVariance(records);
    if variance == 0.0 { return; }
    for i := 0 to |records|
      invariant issues == PerRecord(Outliers(mean, variance), records[..i])
    {
      assert records[..i + 1][..i] == records[..i];
      if Outlier(mean, variance, records[i]) { issues := issues + [Issue(AbnormalVolume, Some(records[i].at))]; }
    }
    assert records[..|records|] == records;
  }

  method ValidateDataset(records: seq<Record>, timeframe: Timeframe) returns (issues: seq<Issue>)
    ensures issues == Report(records, timeframe)
  {
    hide Duplicates, PerPair, PerRecord, TimezoneIssues, VolumeIssues;
    var duplicates := DetectDuplicates(records);
    var outOfOrder := DetectOutOfOrder(records);
    var negatives := DetectNegatives(records);
    var inconsistent := DetectInconsistencies(records);
    var missing := DetectMissing(records, timeframe);
    var jumps := DetectJumps(records);
    var outliers := DetectOutliers(records);
    issues := duplicates + outOfOrder + negatives + inconsistent + TimezoneIssues(records) + missing + jumps + outliers;
  }

  // ---------------------------------------------------------------- what a clean report means

  predicate OneOffset(records: seq<Record>) {
    forall i, j :: 0 <= i < |records| && 0 <= j < |records| ==> records[i].at.UtcOffset() == records[j].at.UtcOffset()
  }

  lemma {:induction false} PerRecordClean(check: Record -> seq<Issue>, records: seq<Record>)
    ensures PerRecord(check, records) == [] <==> forall i :: 0 <= i < |records| ==> check(records[i]) == []
  {
    if records != [] {
      var n := |records| - 1;
      PerRecordClean(check, records[..n]);
      assert forall i :: 0 <= i < n ==> records[..n][i] == records[i];
      if PerRecord(check, records[..n]) != [] {
        var i :| 0 <= i < n && check(records[..n][i]) != [];
        assert check(records[i]) != [];
      }
    }
  }

  lemma {:induction false} PerPairClean(check: (Record, Record) -> seq<Issue>, records: seq<Record>)
    ensures PerPair(check, records) == []
            <==> forall i :: 0 < i < |records| ==> check(records[i - 1], records[i]) == []
  {
    if |records| >= 2 {
      var n := |records| - 1;
      var front := records[..n];
      PerPairClean(check, front);
      if PerPair(check, front) != [] {
        var i :| 0 < i < n && check(front[i - 1], front[i]) != [];
        assert check(records[i - 1], records[i]) != [];
      } else {
        forall i | 0 < i < n ensures check(records[i - 1], records[i]) == [] {
          assert check(front[i - 1], front[i]) == [];
        }
      }
    }
  }

  lemma {:induction false} NoDuplicatesIff(records: seq<Record>)
    ensures Duplicates(records) == [] <==>
              forall i, j :: 0 <= i < j < |records| ==> records[i].at.ToMoment() != records[j].at.ToMoment()
  {
    if records != [] {
      var n := |records| - 1;
      var front := records[..n];
      NoDuplicatesIff(front);
      if records[n].at.ToMoment() in MomentsOf(front) {
        var k :| 0 <= k < n && front[k].at.ToMoment() == records[n].at.ToMoment();
        assert records[k].at.ToMoment() == records[n].at.ToMoment();
      } else {
        assert forall i :: 0 <= i < n ==> front[i].at.ToMoment() in MomentsOf(front) && front[i] == records[i];
      }
    }
  }

  lemma {:induction false} Ascending(records: seq<Record>)
    requires forall i :: 0 < i < |records| ==> records[i - 1].at.Comparable() <= records[i].at.Comparable()
    ensures Ordered(records)
  {
    if records != [] {
      var n := |records| - 1;
      var front := records[..n];
      forall i | 0 < i < n ensures front[i - 1].at.Comparable() <= front[i].at.Comparable() {
        assert records[i - 1].at.Comparable() <= records[i].at.Comparable();
      }
      Ascending(front);
      assert forall i :: 0 <= i < n ==> front[i] == records[i];
      if n > 0 { assert forall i :: 0 <= i < n ==> front[i].at.Comparable() <= front[n - 1].at.Comparable(); }
    }
  }

  lemma NoOrderIssuesIff(records: seq<Record>)
    ensures PerPair(Disorder, records) == [] <==> Ordered(records)
  {
    PerPairClean(Disorder, records);
    if PerPair(Disorder, records) == [] {
      forall i | 0 < i < |records| ensures records[i - 1].at.Comparable() <= records[i].at.Comparable() {
        assert Disorder(records[i - 1], records[i]) == [];
      }
      Ascending(records);
    }
  }

  lemma OneOffsetIff(records: seq<Record>)
    ensures TimezoneIssues(records) == [] <==> OneOffset(records)
  {
    var offsets := OffsetsOf(records);
    if OneOffset(records) {
      if records != [] { assert offsets == {records[0].at.UtcOffset()}; }
    } else {
      var i, j :| 0 <= i < |records| && 0 <= j < |records| && records[i].at.UtcOffset() != records[j].at.UtcOffset();
      assert {records[i].at.UtcOffset(), records[j].at.UtcOffset()} <= offsets;
      SubsetSize({records[i].at.UtcOffset(), records[j].at.UtcOffset()}, offsets);
    }
  }

  lemma {:induction false} SubsetSize<T>(a: set<T>, b: set<T>)
    requires a <= b
    ensures |a| <= |b|
  {
    if a != {} {
      var x :| x in a;
      SubsetSize(a - {x}, b - {x});
    }
  }

  /** The time checks pass exactly on the datasets of one UTC offset whose timestamps strictly increase. */
  lemma TimeChecksIff(records: seq<Record>)
    ensures Duplicates(records) == [] && PerPair(Disorder, records) == [] && TimezoneIssues(records) == []
            <==> StrictlyOrdered(records) && OneOffset(records)
  {
    NoDuplicatesIff(records);
    NoOrderIssuesIff(records);
    OneOffsetIff(records);
    hide Duplicates, PerPair, TimezoneIssues;
    if OneOffset(records) { StrictIff(records); }
  }

  lemma StrictIff(records: seq<Record>)
    requires OneOffset(records)
    ensures StrictlyOrdered(records) <==>
              && Ordered(records)
              && forall i, j :: 0 <= i < j < |records| ==> records[i].at.ToMoment() != records[j].at.ToMoment()
  {
    forall i, j | 0 <= i < j < |records|
      ensures records[i].at.ToMoment() == records[j].at.ToMoment()
              <==> records[i].at.Comparable() == records[j].at.Comparable()
    {
      assert records[i].at.UtcOffset() == records[j].at.UtcOffset();
    }
  }

  /** A record whose low and high enclose its other prices, none of them nor the volume negative. */
  predicate Plausible(r: Record) { 0.0 <= r.low <= r.open <= r.high && r.low <= r.close <= r.high && r.volume >= 0 }

  lemma PlausibleIff(r: Record)
    ensures Negatives(r) == [] && Inconsistencies(r) == [] <==> Plausible(r)
  {
  }

  /** No record's volume is an outlier of the dataset, whenever volumes vary at all. */
  predicate NoOutliers(records: seq<Record>) {
    |records| >= 2 && VolumeVariance(records) != 0.0 ==>
      forall i :: 0 <= i < |records| ==> !Outlier(MeanVolume(records), VolumeVariance(records), records[i])
  }

  lemma NoVolumeIssuesIff(records: seq<Record>)
    ensures VolumeIssues(records) == [] <==> NoOutliers(records)
  {
    if |records| >= 2 && VolumeVariance(records) != 0.0 {
      var check := Outliers(MeanVolume(records), VolumeVariance(records));
      PerRecordClean(check, records);
      assert forall i :: 0 <= i < |records| ==>
        (check(records[i]) == [] <==> !Outlier(MeanVolume(records), VolumeVariance(records), records[i]));
    }
  }

  predicate Steady(records: seq<Record>, timeframe: Timeframe) {
    forall i :: 0 < i < |records| ==> !Gap(records[i - 1], records[i], timeframe) && !Jump(records[i - 1], records[i])
  }

  /** A report is clean exactly when timestamps strictly increase at one offset without a gap or a jump of the
      close in between, every record is plausible, and no volume is an outlier. */
  lemma CleanIff(records: seq<Record>, timeframe: Timeframe)
    ensures Report(records, timeframe) == [] <==>
              && StrictlyOrdered(records) && OneOffset(records)
              && (forall i :: 0 <= i < |records| ==> Plausible(records[i]))
              && Steady(records, timeframe) && NoOutliers(records)
  {
    hide StrictlyOrdered, OneOffset, NoOutliers, Duplicates, TimezoneIssues, VolumeIssues, PerPair, PerRecord, Gap,
         Jump, Plausible, Negatives, Inconsistencies, Disorder;
    TimeChecksIff(records);
    RecordChecksIff(records);
    SteadyIff(records, timeframe);
    NoVolumeIssuesIff(records);
  }

  lemma RecordChecksIff(records: seq<Record>)
    ensures PerRecord(Negatives, records) == [] && PerRecord(Inconsistencies, records) == []
            <==> forall i :: 0 <= i < |records| ==> Plausible(records[i])
  {
    hide Plausible, Negatives, Inconsistencies;
    PerRecordClean(Negatives, records);
    PerRecordClean(Inconsistencies, records);
    forall i | 0 <= i < |records|
      ensures Negatives(records[i]) == [] && Inconsistencies(records[i]) == [] <==> Plausible(records[i])
    {
      PlausibleIff(records[i]);
    }
  }

  lemma SteadyIff(records: seq<Record>, timeframe: Timeframe)
    ensures PerPair(Missing(timeframe), records) == [] && PerPair(Jumps, records) == [] <==> Steady(records, timeframe)
  {
    hide Gap, Jump;
    PerPairClean(Missing(timeframe), records);
    PerPairClean(Jumps, records);
    forall i | 0 < i < |records|
      ensures Missing(timeframe)(records[i - 1], records[i]) == [] <==> !Gap(records[i - 1], records[i], timeframe)
      ensures Jumps(records[i - 1], records[i]) == [] <==> !Jump(records[i - 1], records[i])
    {
    }
  }

  /** A dataset that passes validation is never mixed and already sorted, so it is stored as it came. */
  lemma CleanIsVerbatim(records: seq<Record>, timeframe: Timeframe)
    requires Report(records, timeframe) == []
    ensures StrictlyOrdered(records) && !Mixed(records) && SortByTime(records) == records
  {
    TimeChecksIff(records);
    OrderedIsOrderedBy(records);
    SortOfOrdered(TimeOf, records);
  }
}
