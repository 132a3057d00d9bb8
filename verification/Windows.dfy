/** Walk-forward windows: three generators, one schedule of test intervals, no look-ahead. */
module Windows {
  import opened Market

  datatype Window = Window(index: nat, trainStart: Time, trainEnd: Time, testStart: Time, testEnd: Time)

  datatype WindowType = Rolling | Expanding | Anchored

  /** Durations in days, all positive. */
  datatype WindowConfig = WindowConfig(kind: WindowType, trainingDays: int, testingDays: int, stepDays: int)
  {
    predicate Valid() { trainingDays > 0 && testingDays > 0 && stepDays > 0 }

    function Training(): int { trainingDays * MICROS_PER_DAY }
    function Testing(): int { testingDays * MICROS_PER_DAY }
    function Step(): int { stepDays * MICROS_PER_DAY }
  }

  /** The k-th window of each kind: the test interval is the same for all three. */
  function WindowAt(config: WindowConfig, start: Time, k: nat): Window {
    var shift := k * config.Step();
    var trainStart := if config.kind == Rolling then start + shift else start;
    var trainEnd := start + config.Training() + if config.kind == Anchored then 0 else shift;
    var testStart := start + config.Training() + shift;
    Window(k, trainStart, trainEnd, testStart, testStart + config.Testing())
  }

  /** How many whole windows fit. */
  function Count(config: WindowConfig, start: Time, end: Time): nat
    requires config.Valid()
  {
    var room := end - start - config.Training() - config.Testing();
    if room < 0 then 0 else room / config.Step() + 1
  }

  function AllWindows(config: WindowConfig, start: Time, end: Time): seq<Window>
    requires config.Valid()
  {
    seq(Count(config, start, end), k requires 0 <= k => WindowAt(config, start, k))
  }

  /** The k-th window is produced exactly when its test interval still fits in the data. */
  lemma FitsIff(config: WindowConfig, start: Time, end: Time, k: nat)
    requires config.Valid()
    ensures k < Count(config, start, end) <==> WindowAt(config, start, k).testEnd <= end
  {
    var room := end - start - config.Training() - config.Testing();
    if room >= 0 { QuotientIff(room, config.Step(), k); } else { ProductNonNegative(k, config.Step()); }
  }

  lemma QuotientIff(room: nat, step: int, k: nat)
    requires step > 0
    ensures k <= room / step <==> k * step <= room
  {
    var q := room / step;
    assert room == q * step + room % step;
    if k <= q { MulLe(k, q, step); } else { MulLe(q + 1, k, step); }
  }

  lemma MulLe(a: int, b: int, c: int)
    requires a <= b && c >= 0
    ensures a * c <= b * c
  {
  }

  lemma ProductNonNegative(a: int, b: int)
    requires a >= 0 && b >= 0
    ensures a * b >= 0
  {
  }

  lemma StepProduct(k: nat, step: int)
    ensures (k + 1) * step == k * step + step
  {
  }

  /** A list that reaches the first window that does not fit is the whole schedule. */
  lemma Complete(config: WindowConfig, start: Time, end: Time, windows: seq<Window>)
    requires config.Valid()
    requires forall k :: 0 <= k < |windows| ==> windows[k] == WindowAt(config, start, k) && windows[k].testEnd <= end
    requires WindowAt(config, start, |windows|).testEnd > end
    ensures windows == AllWindows(config, start, end)
  {
    FitsIff(config, start, end, |windows|);
    if |windows| > 0 { FitsIff(config, start, end, |windows| - 1); }
  }

  method GenerateRolling(config: WindowConfig, start: Time, end: Time) returns (windows: seq<Window>)
    requires config.Valid() && config.kind == Rolling
    ensures windows == AllWindows(config, start, end)
  {
    windows := [];
    var trainStart := start;
    var index: nat := 0;
    while true
      invariant index == |windows| && trainStart == start + index * config.Step()
      invariant forall k :: 0 <= k < index ==> windows[k] == WindowAt(config, start, k) && windows[k].testEnd <= end
      decreases end - trainStart
    {
      var trainEnd := trainStart + config.Training();
      var testStart := trainEnd;
      var testEnd := testStart + config.Testing();
      if testEnd > end { break; }
      windows := windows + [Window(index, trainStart, trainEnd, testStart, testEnd)];
      StepProduct(index, config.Step());
      trainStart := trainStart + config.Step();
      index := index + 1;
    }
    Complete(config, start, end, windows);
  }

  method GenerateExpanding(config: WindowConfig, start: Time, end: Time) returns (windows: seq<Window>)
    requires config.Valid() && config.kind == Expanding
    ensures windows == AllWindows(config, start, end)
  {
    windows := [];
    var trainEnd := start + config.Training();
    var index: nat := 0;
    while true
      invariant index == |windows| && trainEnd == start + config.Training() + index * config.Step()
      invariant forall k :: 0 <= k < index ==> windows[k] == WindowAt(config, start, k) && windows[k].testEnd <= end
      decreases end - trainEnd
    {
      var testStart := trainEnd;
      var testEnd := testStart + config.Testing();
      if testEnd > end { break; }
      windows := windows + [Window(index, start, trainEnd, testStart, testEnd)];
      StepProduct(index, config.Step());
      trainEnd := trainEnd + config.Step();
      index := index + 1;
    }
    Complete(config, start, end, windows);
  }

  method GenerateAnchored(config: WindowConfig, start: Time, end: Time) returns (windows: seq<Window>)
    requires config.Valid() && config.kind == Anchored
    ensures windows == AllWindows(config, start, end)
  {
    windows := [];
    var trainEnd := start + config.Training();
    var testStart := trainEnd;
    var index: nat := 0;
    while true
      invariant index == |windows| && testStart == start + config.Training() + index * config.Step()
      invariant forall k :: 0 <= k < index ==> windows[k] == WindowAt(config, start, k) && windows[k].testEnd <= end
      decreases end - testStart
    {
      var testEnd := testStart + config.Testing();
      if testEnd > end { break; }
      windows := windows + [Window(index, start, trainEnd, testStart, testEnd)];
      StepProduct(index, config.Step());
      testStart := testStart + config.Step();
      index := index + 1;
    }
    Complete(config, start, end, windows);
  }

  method GenerateWindows(config: WindowConfig, start: Time, end: Time) returns (windows: seq<Window>)
    requires config.Valid()
    ensures windows == AllWindows(config, start, end)
  {
    match config.kind
    case Rolling => windows := GenerateRolling(config, start, end);
    case Expanding => windows := GenerateExpanding(config, start, end);
    case Anchored => windows := GenerateAnchored(config, start, end);
  }

  // ---------------------------------------------------------------- what the windows promise

  /** Every window trains before it tests, on a non-empty stretch, inside the data. */
  lemma NoLookAhead(config: WindowConfig, start: Time, end: Time, k: nat)
    requires config.Valid() && k < Count(config, start, end)
    ensures var w := AllWindows(config, start, end)[k];
            && start <= w.trainStart < w.trainEnd <= w.testStart < w.testEnd <= end
            && (config.kind != Anchored ==> w.trainEnd == w.testStart)
            && w.trainEnd - w.trainStart >= config.Training() && w.testEnd - w.testStart == config.Testing()
  {
    FitsIff(config, start, end, k);
    ProductNonNegative(k, config.Step());
  }

  /** The kind of window changes the training interval only. */
  lemma SameTestIntervals(a: WindowConfig, b: WindowConfig, start: Time, end: Time)
    requires a.Valid() && a.(kind := b.kind) == b
    ensures |AllWindows(a, start, end)| == |AllWindows(b, start, end)|
    ensures forall k :: 0 <= k < Count(a, start, end) ==>
              && AllWindows(a, start, end)[k].testStart == AllWindows(b, start, end)[k].testStart
              && AllWindows(a, start, end)[k].testEnd == AllWindows(b, start, end)[k].testEnd
  {
  }

  /** Consecutive test intervals move forward by the step, so they overlap exactly when the step is shorter than
      a test. */
  lemma TestsOverlapIff(config: WindowConfig, start: Time, end: Time, k: nat)
    requires config.Valid() && k + 1 < Count(config, start, end)
    ensures var windows := AllWindows(config, start, end);
            windows[k + 1].testStart < windows[k].testEnd <==> config.stepDays < config.testingDays
  {
  }

  /** The candles of a half-open interval, in order. */
  function CandlesInRange(candles: seq<Candle>, from: Time, to: Time): seq<Candle> {
    if candles == [] then []
    else
      var n := |candles| - 1;
      CandlesInRange(candles[..n], from, to)
      + if from <= candles[n].timestamp < to then [candles[n]] else []
  }

  lemma {:induction false} InRange(candles: seq<Candle>, from: Time, to: Time)
    ensures forall c :: c in CandlesInRange(candles, from, to) <==> c in candles && from <= c.timestamp < to
  {
    if candles != [] {
      var n := |candles| - 1;
      InRange(candles[..n], from, to);
      assert candles == candles[..n] + [candles[n]];
    }
  }

  /** In every window, every training candle precedes every test candle, so none is in both; this needs nothing
      of the order of the candles. */
  lemma TrainPrecedesTest(config: WindowConfig, start: Time, end: Time, k: nat, candles: seq<Candle>)
    requires config.Valid() && k < Count(config, start, end)
    ensures var w := AllWindows(config, start, end)[k];
            var train, test := CandlesInRange(candles, w.trainStart, w.trainEnd),
                               CandlesInRange(candles, w.testStart, w.testEnd);
            && (forall a, b :: a in train && b in test ==> a.timestamp < b.timestamp)
            && (forall c :: c in train ==> c !in test)
  {
    var w := AllWindows(config, start, end)[k];
    NoLookAhead(config, start, end, k);
    InRange(candles, w.trainStart, w.trainEnd);
    InRange(candles, w.testStart, w.testEnd);
  }

  /** The schedule as a list of steps: the first window starts with the data, tests right after its training and lasts
      as long as configured; every further one moves its test interval by the step, its training start by the step
      only when rolling, and its training end by the step unless anchored. */
  lemma ScheduleMovesByStep(config: WindowConfig, start: Time, end: Time)
    requires config.Valid()
    ensures var windows := AllWindows(config, start, end);
            && (windows != [] ==>
                  && windows[0].index == 0 && windows[0].trainStart == start
                  && windows[0].trainEnd == windows[0].testStart == start + config.trainingDays * 86_400_000_000
                  && windows[0].testEnd == windows[0].testStart + config.testingDays * 86_400_000_000)
            && forall k :: 0 < k < |windows| ==>
                 var before, w, step := windows[k - 1], windows[k], config.stepDays * 86_400_000_000;
                 && w.index == before.index + 1
                 && w.testStart == before.testStart + step && w.testEnd == before.testEnd + step
                 && w.trainStart == before.trainStart + (if config.kind == Rolling then step else 0)
                 && w.trainEnd == before.trainEnd + (if config.kind == Anchored then 0 else step)
  {
    forall k: nat | 0 < k < Count(config, start, end)
      ensures k * config.Step() == (k - 1) * config.Step() + config.Step()
    {
      StepProduct(k - 1, config.Step());
    }
    hide Count;
  }
}
