/** Monte Carlo perturbations of a trade list, the equity curve they lead to, and what a shuffle cannot change. */
module MonteCarlo {
  import opened Arithmetic
  import opened Market
  import opened Rounding
  import opened PaperModels
  import opened Equity
  import opened Sorting
  import opened Sums

  /** A completed trade, as far as the perturbations read it. */
  datatype Trade = Trade(
    direction: Direction,
    entryPrice: real,
    exitPrice: real,
    quantity: int,
    pnl: Money,
    entryTime: Time,
    exitTime: Time)

  datatype SlippageConfig = SlippageConfig(entryPercent: real, exitPercent: real)
  {
    predicate Valid() { entryPercent >= 0.0 && exitPercent >= 0.0 }
  }

  datatype CommissionConfig = CommissionConfig(percent: real, flat: real)
  {
    predicate Valid() { percent >= 0.0 && flat >= 0.0 }
  }

  /** The enabled perturbations: the delay in candles, and the probability of a missed trade in percent. */
  datatype Perturbations = Perturbations(
    shuffle: bool,
    slippage: Option<SlippageConfig>,
    commission: Option<CommissionConfig>,
    delay: Option<nat>,
    missed: Option<real>,
    variation: bool)

  /** What a simulation is handed besides the trades: the candles, if any, and the draws of the generator, which
      decide the swaps of the shuffle, the missed trades and the percentage each trade is resized by. */
  datatype World = World(
    candles: Option<seq<Candle>>,
    swap: nat -> nat,
    miss: nat -> real,
    resize: nat -> real)

  // ---------------------------------------------------------------- one trade

  function Repriced(t: Trade, entry: real, exit: real, quantity: int): Trade {
    t.(entryPrice := entry, exitPrice := exit, quantity := quantity,
       pnl := SignedPnl(t.direction, entry, exit, quantity))
  }

  function Slipped(t: Trade, config: SlippageConfig): Trade {
    var entry := if t.direction == Short then t.entryPrice * (1.0 - config.entryPercent / 100.0)
                 else t.entryPrice * (1.0 + config.entryPercent / 100.0);
    var exit := if t.direction == Short then t.exitPrice * (1.0 + config.exitPercent / 100.0)
                else t.exitPrice * (1.0 - config.exitPercent / 100.0);
    Repriced(t, entry, exit, t.quantity)
  }

  function Cost(t: Trade, config: CommissionConfig): real {
    (t.entryPrice + t.exitPrice) * t.quantity as real * config.percent / 100.0 + config.flat
  }

  function Charged(t: Trade, config: CommissionConfig): Trade {
    t.(pnl := ToMoney(Amount(t.pnl) - Cost(t, config)))
  }

  function CandleTime(candle: Candle): real { candle.timestamp as real }

  /** The last position of a timestamp, as a dictionary of positions keeps it. */
  function PositionOf(ordered: seq<Candle>, t: Time): Option<nat> {
    if ordered == [] then None
    else
      var n := |ordered| - 1;
      if ordered[n].timestamp == t then Some(n) else PositionOf(ordered[..n], t)
  }

  /** The close a number of candles after the one of a timestamp, when both exist. */
  function DelayedPrice(ordered: seq<Candle>, t: Time, delay: nat): Option<real> {
    var k := PositionOf(ordered, t);
    if k.Some? && k.value + delay < |ordered| then Some(ordered[k.value + delay].close) else None
  }

  function OrElse(price: Option<real>, otherwise: real): real { if price.Some? then price.value else otherwise }

  /** Both fills delayed; a fill past the end of the candles keeps its price. */
  function Delayed(t: Trade, ordered: seq<Candle>, delay: nat): Trade {
    Repriced(t, OrElse(DelayedPrice(ordered, t.entryTime, delay), t.entryPrice),
             OrElse(DelayedPrice(ordered, t.exitTime, delay), t.exitPrice), t.quantity)
  }

  function Grown(x: real, percent: real): real { x * (1.0 + percent / 100.0) }

  /** A quantity resized by a percentage, to one unit at least. */
  function Varied(quantity: int, percent: real): int { Max(1, RoundHalfEven(Grown(quantity as real, percent))) }

  function Resized(t: Trade, percent: real): Trade {
    Repriced(t, t.entryPrice, t.exitPrice, Varied(t.quantity, percent))
  }

  // ---------------------------------------------------------------- a list of trades

  function SlipAll(trades: seq<Trade>, config: SlippageConfig): seq<Trade> {
    seq(|trades|, i requires 0 <= i < |trades| => Slipped(trades[i], config))
  }

  function ChargeAll(trades: seq<Trade>, config: CommissionConfig): seq<Trade> {
    seq(|trades|, i requires 0 <= i < |trades| => Charged(trades[i], config))
  }

  function DelayAll(trades: seq<Trade>, ordered: seq<Candle>, delay: nat): seq<Trade> {
    seq(|trades|, i requires 0 <= i < |trades| => Delayed(trades[i], ordered, delay))
  }

  /** The trades that are not missed; draw i decides the i-th trade. */
  function Kept(trades: seq<Trade>, percent: real, miss: nat -> real): seq<Trade> {
    if trades == [] then []
    else
      var n := |trades| - 1;
      Kept(trades[..n], percent, miss) + if miss(n) >= percent then [trades[n]] else []
  }

  function ResizeAll(trades: seq<Trade>, resize: nat -> real): seq<Trade> {
    seq(|trades|, i requires 0 <= i < |trades| => Resized(trades[i], resize(i)))
  }

  // ---------------------------------------------------------------- equity curve

  function PnlOf(t: Trade): Money { t.pnl }
  function LossOf(t: Trade): Money { Max(0, -t.pnl) }

  function Sum(trades: seq<Trade>): Money { SumOf(PnlOf, trades) }
  function LossTotal(trades: seq<Trade>): Money { SumOf(LossOf, trades) }

  /** The k-th point of the curve: the initial capital and the first k trades. */
  function CurveOf(trades: seq<Trade>, initial: Money): seq<Money> {
    seq(|trades| + 1, k requires 0 <= k <= |trades| => initial + Sum(trades[..k]))
  }

  method BuildEquityCurve(trades: seq<Trade>, initial: Money) returns (curve: seq<Money>)
    ensures curve == CurveOf(trades, initial)
  {
    var equity := initial;
    curve := [equity];
    for k := 0 to |trades|
      invariant equity == initial + Sum(trades[..k])
      invariant curve == CurveOf(trades, initial)[..k + 1]
    {
      assert trades[..k + 1][..k] == trades[..k];
      equity := equity + trades[k].pnl;
      curve := curve + [equity];
    }
  }

  // ---------------------------------------------------------------- shuffle

  function Swapped(trades: seq<Trade>, i: nat, j: nat): (swapped: seq<Trade>)
    requires i < |trades| && j < |trades|
    ensures |swapped| == |trades|
  {
    trades[i := trades[j]][j := trades[i]]
  }

  /** The positions below i still to be shuffled: the last of them is swapped with a drawn one at or below it. */
  function Shuffled(trades: seq<Trade>, i: nat, draw: nat -> nat): (shuffled: seq<Trade>)
    requires i <= |trades|
    ensures |shuffled| == |trades|
    decreases i
  {
    if i <= 1 then trades else Shuffled(Swapped(trades, i - 1, draw(i - 1) % i), i - 1, draw)
  }

  /** The in-place shuffle: from the last position down, swap with a drawn position at or below it. */
  method Shuffle(trades: array<Trade>, draw: nat -> nat)
    modifies trades
    ensures trades[..] == Shuffled(old(trades[..]), trades.Length, draw)
  {
    var i: nat := trades.Length;
    while i > 1
      invariant i <= trades.Length
      invariant Shuffled(trades[..], i, draw) == Shuffled(old(trades[..]), trades.Length, draw)
    {
      ghost var before := trades[..];
      i := i - 1;
      var j := draw(i) % (i + 1);
      trades[i], trades[j] := trades[j], trades[i];
      assert trades[..] == Swapped(before, i, j);
    }
  }

  datatype SimulationResult = SimulationResult(
    finalCapital: Money,
    netProfit: Money,
    totalReturnPercent: real,
    maxDrawdown: Money,
    totalTrades: nat)

  function ReturnPercent(profit: Money, initial: Money): real {
    if initial == 0 then 0.0 else RoundTo(profit as real / initial as real * 100.0, UNITS)
  }

  function Measured(trades: seq<Trade>, initial: Money): SimulationResult {
    SimulationResult(initial + Sum(trades), Sum(trades), ReturnPercent(Sum(trades), initial),
                     MaxDrawdown(CurveOf(trades, initial)), |trades|)
  }

  /** The stages before the trades are repriced by a delay. */
  function WithCosts(trades: seq<Trade>, config: Perturbations): seq<Trade> {
    var slipped := if config.slippage.Some? then SlipAll(trades, config.slippage.value) else trades;
    if config.commission.Some? then ChargeAll(slipped, config.commission.value) else slipped
  }

  /** The enabled stages after the shuffle, in their fixed order; a delay without candles raises. */
  function Perturbed(trades: seq<Trade>, config: Perturbations, world: World): Option<seq<Trade>> {
    if config.delay.Some? && world.candles.None? then None
    else
      var charged := WithCosts(trades, config);
      var delayed := if config.delay.Some?
                     then DelayAll(charged, SortBy(CandleTime, world.candles.value), config.delay.value) else charged;
      var kept := if config.missed.Some? then Kept(delayed, config.missed.value, world.miss) else delayed;
      Some(if config.variation then ResizeAll(kept, world.resize) else kept)
  }

  /** The trades in the order a simulation processes them. */
  function Processed(trades: seq<Trade>, config: Perturbations, world: World): seq<Trade> {
    if config.shuffle then Shuffled(trades, |trades|, world.swap) else trades
  }

  /** The measurement of the perturbed trades, or nothing when a delay has no candles to look at. */
  function Outcome(trades: seq<Trade>, initial: Money, config: Perturbations, world: World): Option<SimulationResult> {
    match Perturbed(Processed(trades, config, world), config, world)
    case None => None
    case Some(perturbed) => Some(Measured(perturbed, initial))
  }

  method RunOneSimulation(trades: seq<Trade>, initial: Money, config: Perturbations, world: World)
    returns (result: Option<SimulationResult>)
    ensures result == Outcome(trades, initial, config, world)
  {
    hide MaxDrawdown, Kept, Slipped, Charged, SortBy, Delayed, Resized, SumOf, Shuffled;
    var perturbed := trades;
    if config.shuffle {
      var shuffled := new Trade[|trades|](i requires 0 <= i < |trades| => trades[i]);
      assert shuffled[..] == trades;
      Shuffle(shuffled, world.swap);
      perturbed := shuffled[..];
    }
    assert perturbed == Processed(trades, config, world);
    if config.slippage.Some? { perturbed := SlipAll(perturbed, config.slippage.value); }
    if config.commission.Some? { perturbed := ChargeAll(perturbed, config.commission.value); }
    if config.delay.Some? {
      if world.candles.None? { return None; }
      perturbed := DelayAll(perturbed, SortBy(CandleTime, world.candles.value), config.delay.value);
    }
    if config.missed.Some? { perturbed := Kept(perturbed, config.missed.value, world.miss); }
    if config.variation { perturbed := ResizeAll(perturbed, world.resize); }
    assert Perturbed(Processed(trades, config, world), config, world) == Some(perturbed);
    var measured := Measure(perturbed, initial);
    result := Some(measured);
  }

  method Measure(trades: seq<Trade>, initial: Money) returns (result: SimulationResult)
    ensures result == Measured(trades, initial)
  {
    hide MaxDrawdown;
    var curve := BuildEquityCurve(trades, initial);
    var finalCapital := curve[|curve| - 1];
    assert trades[..|trades|] == trades;
    var maxDrawdown := CalculateMaxDrawdown(curve);
    var profit := finalCapital - initial;
    result := SimulationResult(finalCapital, profit, ReturnPercent(profit, initial), maxDrawdown, |trades|);
  }

  /** What is measured is read off the curve that starts at the initial capital and moves by each trade's pnl. */
  lemma MeasuredFromCurve(trades: seq<Trade>, initial: Money)
    ensures var curve, result := CurveOf(trades, initial), Measured(trades, initial);
            && |curve| == |trades| + 1 && curve[0] == initial
            && (forall k :: 0 <= k < |trades| ==> curve[k + 1] == curve[k] + trades[k].pnl)
            && result.finalCapital == curve[|trades|] && result.netProfit == curve[|trades|] - curve[0]
            && (forall i, j :: 0 <= i <= j <= |trades| ==> curve[i] - curve[j] <= result.maxDrawdown)
            && (exists i: nat, j: nat :: FallsBy(curve, i, j, result.maxDrawdown))
            && result.totalReturnPercent
               == if initial == 0 then 0.0 else RoundTo(100.0 * result.netProfit as real / initial as real, 10000.0)
  {
    CurveSteps(trades, initial);
    MaxDrawdownIsLargestFall(CurveOf(trades, initial));
    ReturnIs(Sum(trades), initial);
    hide MaxDrawdown, CurveOf, ReturnPercent, RoundTo, SumOf;
  }

  lemma ReturnIs(profit: Money, initial: Money)
    ensures ReturnPercent(profit, initial)
            == if initial == 0 then 0.0 else RoundTo(100.0 * profit as real / initial as real, 10000.0)
  {
    if initial != 0 { PercentOf(profit as real, initial as real); }
  }

  lemma CurveSteps(trades: seq<Trade>, initial: Money)
    ensures var curve := CurveOf(trades, initial);
            && |curve| == |trades| + 1 && curve[0] == initial && curve[|trades|] == initial + Sum(trades)
            && forall k :: 0 <= k < |trades| ==> curve[k + 1] == curve[k] + trades[k].pnl
  {
    var curve := CurveOf(trades, initial);
    forall k | 0 <= k < |trades| ensures curve[k + 1] == curve[k] + trades[k].pnl {
      assert trades[..k + 1][..k] == trades[..k];
    }
    assert trades[..|trades|] == trades;
  }

  // ---------------------------------------------------------------- repricing discards earlier costs

  /** A delayed fill looks forward: it is the close of a given candle no earlier than the fill it replaces. */
  lemma DelayLooksForward(candles: seq<Candle>, t: Time, delay: nat)
    ensures var price := DelayedPrice(SortBy(CandleTime, candles), t, delay);
            price.Some? ==> exists c :: c in candles && c.close == price.value && c.timestamp >= t
  {
    var ordered := SortBy(CandleTime, candles);
    SortOrders(CandleTime, candles);
    SortPermutes(CandleTime, candles);
    PositionHolds(ordered, t);
    hide SortBy, PositionOf;
    var price := DelayedPrice(ordered, t, delay);
    if price.Some? {
      var k := PositionOf(ordered, t).value;
      var c := ordered[k + delay];
      assert CandleTime(ordered[k]) <= CandleTime(c);
      assert c in multiset(ordered);
      assert c in candles && c.close == price.value && c.timestamp >= t;
    }
  }

  lemma {:induction false} PositionHolds(ordered: seq<Candle>, t: Time)
    ensures var k := PositionOf(ordered, t);
            if k.Some? then k.value < |ordered| && ordered[k.value].timestamp == t
            else forall i :: 0 <= i < |ordered| ==> ordered[i].timestamp != t
  {
    if ordered != [] { PositionHolds(ordered[..|ordered| - 1], t); }
  }

  predicate Increasing(candles: seq<Candle>) {
    forall i, j :: 0 <= i < j < |candles| ==> candles[i].timestamp < candles[j].timestamp
  }

  /** The candles may come in any order: they are looked up in the order of their timestamps. */
  lemma CandlesInOrder(candles: seq<Candle>, ordered: seq<Candle>)
    requires Increasing(ordered) && multiset(candles) == multiset(ordered)
    ensures SortBy(CandleTime, candles) == ordered
  {
    SortOrders(CandleTime, candles);
    SortPermutes(CandleTime, candles);
    hide SortBy;
    assert OrderedBy(CandleTime, ordered);
    forall x, y | x in ordered && y in ordered && CandleTime(x) == CandleTime(y) ensures x == y {
      var i :| 0 <= i < |ordered| && ordered[i] == x;
      var j :| 0 <= j < |ordered| && ordered[j] == y;
      assert i == j;
    }
    SortedUnique(CandleTime, ordered, SortBy(CandleTime, candles));
  }

  /** The price of a fill made on the i-th candle: the close as many candles later, or its own past the end. */
  function LaterClose(ordered: seq<Candle>, i: nat, delay: nat, own: real): real {
    if i + delay < |ordered| then ordered[i + delay].close else own
  }

  lemma DelayedFrom(ordered: seq<Candle>, i: nat, delay: nat, own: real)
    requires Increasing(ordered) && i < |ordered|
    ensures OrElse(DelayedPrice(ordered, ordered[i].timestamp, delay), own) == LaterClose(ordered, i, delay, own)
  {
    PositionHolds(ordered, ordered[i].timestamp);
    var k := PositionOf(ordered, ordered[i].timestamp).value;
    assert k == i;
  }

  /** With candles of distinct timestamps, given in any order, both fills move exactly the configured number of
      candles and nothing but the prices and the pnl changes. */
  lemma DelayIsExact(t: Trade, candles: seq<Candle>, ordered: seq<Candle>, i: nat, j: nat, delay: nat)
    requires Increasing(ordered) && multiset(candles) == multiset(ordered) && i < |ordered| && j < |ordered|
    requires t.entryTime == ordered[i].timestamp && t.exitTime == ordered[j].timestamp
    ensures var entry, exit := LaterClose(ordered, i, delay, t.entryPrice), LaterClose(ordered, j, delay, t.exitPrice);
            Delayed(t, SortBy(CandleTime, candles), delay)
            == t.(entryPrice := entry, exitPrice := exit, pnl := SignedPnl(t.direction, entry, exit, t.quantity))
  {
    CandlesInOrder(candles, ordered);
    DelayedFrom(ordered, i, delay, t.entryPrice);
    DelayedFrom(ordered, j, delay, t.exitPrice);
    hide SortBy, DelayedPrice, LaterClose, SignedPnl;
  }

  /** A fill at a time without a candle keeps its price. */
  lemma DelayNeedsCandle(candles: seq<Candle>, t: Time, delay: nat)
    requires forall c :: c in candles ==> c.timestamp != t
    ensures DelayedPrice(SortBy(CandleTime, candles), t, delay) == None
  {
    SortPermutes(CandleTime, candles);
    var ordered := SortBy(CandleTime, candles);
    PositionHolds(ordered, t);
    hide SortBy, PositionOf;
    forall i | 0 <= i < |ordered| ensures ordered[i].timestamp != t {
      assert ordered[i] in multiset(ordered);
    }
  }

  /** Two lists whose trades differ in nothing but the pnl. */
  predicate SameFills(a: seq<Trade>, b: seq<Trade>) {
    |a| == |b| && forall i :: 0 <= i < |a| ==> a[i] == b[i].(pnl := a[i].pnl)
  }

  lemma {:induction false} KeptSameFills(a: seq<Trade>, b: seq<Trade>, percent: real, miss: nat -> real)
    requires SameFills(a, b)
    ensures SameFills(Kept(a, percent, miss), Kept(b, percent, miss))
  {
    if a != [] { KeptSameFills(a[..|a| - 1], b[..|b| - 1], percent, miss); }
  }

  lemma ResizedSameFills(a: seq<Trade>, b: seq<Trade>, resize: nat -> real)
    requires SameFills(a, b)
    ensures ResizeAll(a, resize) == ResizeAll(b, resize)
  {
    hide SignedPnl, Varied;
    forall i | 0 <= i < |a| ensures Resized(a[i], resize(i)) == Resized(b[i], resize(i)) {
      assert a[i] == b[i].(pnl := a[i].pnl);
    }
  }

  /** An execution delay or a position variation recomputes every pnl from prices, so a commission charged before it
      leaves no trace: the simulation is the one without commission. */
  lemma RepricingForgetsCommission(trades: seq<Trade>, config: Perturbations, world: World)
    requires config.delay.Some? || config.variation
    ensures Perturbed(trades, config, world) == Perturbed(trades, config.(commission := None), world)
  {
    hide Slipped, Kept, SortBy, SignedPnl;
    var charged, plain := WithCosts(trades, config), WithCosts(trades, config.(commission := None));
    assert SameFills(charged, plain);
    if !(config.delay.Some? && world.candles.None?) {
      if config.delay.Some? {
        var ordered := SortBy(CandleTime, world.candles.value);
        assert DelayAll(charged, ordered, config.delay.value) == DelayAll(plain, ordered, config.delay.value);
      } else if config.missed.Some? {
        KeptSameFills(charged, plain, config.missed.value, world.miss);
        ResizedSameFills(Kept(charged, config.missed.value, world.miss), Kept(plain, config.missed.value, world.miss),
                         world.resize);
      } else {
        ResizedSameFills(charged, plain, world.resize);
      }
    }
  }

  // ---------------------------------------------------------------- shuffle invariance

  /** No stretch of a list loses more than all its losing trades together. */
  lemma {:induction false} StretchLoss(trades: seq<Trade>, i: nat, j: nat)
    requires i <= j <= |trades|
    ensures Sum(trades[..i]) - Sum(trades[..j]) <= LossTotal(trades[..j]) - LossTotal(trades[..i])
    ensures 0 <= LossTotal(trades[..i]) <= LossTotal(trades[..j])
  {
    if i < j {
      StretchLoss(trades, i, j - 1);
      assert trades[..j][..j - 1] == trades[..j - 1];
    } else if i > 0 {
      StretchLoss(trades, i - 1, i - 1);
      assert trades[..i][..i - 1] == trades[..i - 1];
    }
  }

  /** The drawdown of any order lies between the net loss and the sum of the losing trades. */
  lemma DrawdownBounds(trades: seq<Trade>, initial: Money)
    ensures Max(0, -Sum(trades)) <= MaxDrawdown(CurveOf(trades, initial)) <= LossTotal(trades)
  {
    var curve := CurveOf(trades, initial);
    MaxDrawdownIsLargestFall(curve);
    assert trades[..|trades|] == trades;
    assert curve[0] - curve[|trades|] == -Sum(trades);
    var i: nat, j: nat :| FallsBy(curve, i, j, MaxDrawdown(curve));
    StretchLoss(trades, i, j);
    StretchLoss(trades, j, |trades|);
  }

  /** Whatever order a shuffle produces, the final capital is unchanged and the drawdown stays within the same
      two bounds. */
  lemma ShuffleKeepsOutcome(trades: seq<Trade>, shuffled: seq<Trade>, initial: Money)
    requires multiset(shuffled) == multiset(trades)
    ensures Measured(shuffled, initial).finalCapital == Measured(trades, initial).finalCapital
    ensures Measured(shuffled, initial).totalTrades == |trades|
    ensures Max(0, -Sum(trades)) <= Measured(shuffled, initial).maxDrawdown <= LossTotal(trades)
  {
    hide CurveOf, MaxDrawdown;
    SumOfPermutation(PnlOf, shuffled, trades);
    SumOfPermutation(LossOf, shuffled, trades);
    DrawdownBounds(shuffled, initial);
    assert |multiset(shuffled)| == |multiset(trades)|;
  }
}
