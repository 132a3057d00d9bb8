/** Slippage and commission against a simulation: when each of them, and when both together, can only lower a trade,
    and what that means for the equity curve. */
module Costs {
  import opened Arithmetic
  import opened Market
  import opened Rounding
  import opened PaperModels
  import opened Equity
  import opened Draws
  import opened MonteCarlo
  import opened Sums

  /** A trade with a genuine baseline: non-negative prices and quantity, and the pnl of its own prices. */
  predicate Genuine(t: Trade) {
    && t.entryPrice >= 0.0 && t.exitPrice >= 0.0 && t.quantity >= 0
    && t.pnl == SignedPnl(t.direction, t.entryPrice, t.exitPrice, t.quantity)
  }

  function GenuineTrade(direction: Direction, entry: real, exit: real, quantity: int): Trade {
    Trade(direction, entry, exit, quantity, SignedPnl(direction, entry, exit, quantity), 0, 0)
  }

  /** A trade that pays nothing and receives one per unit. */
  function OneSided(direction: Direction, quantity: int): Trade {
    if direction == Short then GenuineTrade(Short, 1.0, 0.0, quantity) else GenuineTrade(Long, 0.0, 1.0, quantity)
  }

  /** Each fill moves against the trade by its percentage, and nothing but the prices and the pnl changes. */
  lemma SlippageMovesFills(t: Trade, config: SlippageConfig)
    ensures var s := Slipped(t, config);
            var worse := if t.direction == Short then -1.0 else 1.0;
            && s.entryPrice - t.entryPrice == worse * (t.entryPrice * config.entryPercent / 100.0)
            && s.exitPrice - t.exitPrice == -worse * (t.exitPrice * config.exitPercent / 100.0)
            && s == t.(entryPrice := s.entryPrice, exitPrice := s.exitPrice,
                       pnl := SignedPnl(t.direction, s.entryPrice, s.exitPrice, t.quantity))
  {
    hide SignedPnl;
  }

  /** A commission takes its percentage of the notional of both fills and the flat fee from the pnl, up to the
      rounding, and changes nothing else. */
  lemma CommissionTakes(t: Trade, config: CommissionConfig)
    ensures var charged := Charged(t, config);
            var notional := t.entryPrice * t.quantity as real + t.exitPrice * t.quantity as real;
            && Abs(Amount(charged.pnl) - (Amount(t.pnl) - (notional * config.percent / 100.0 + config.flat)))
               <= HALF_UNIT
            && charged == t.(pnl := charged.pnl)
  {
    ToMoneyNear(Amount(t.pnl) - Cost(t, config));
    CostIs(t, config);
    hide ToMoney, Amount, Cost;
  }

  lemma CostIs(t: Trade, config: CommissionConfig)
    ensures Cost(t, config)
            == (t.entryPrice * t.quantity as real + t.exitPrice * t.quantity as real) * config.percent / 100.0
               + config.flat
  {
    var a, b, q := t.entryPrice, t.exitPrice, t.quantity as real;
    assert (a + b) * q == a * q + b * q;
    assert (a + b) * q * config.percent == (a * q + b * q) * config.percent;
  }

  // ---------------------------------------------------------------- slippage

  lemma Widen(price: real, percent: real)
    requires price >= 0.0 && percent >= 0.0
    ensures price * (1.0 - percent / 100.0) <= price <= price * (1.0 + percent / 100.0)
    ensures percent <= 100.0 ==> 0.0 <= price * (1.0 - percent / 100.0)
  {
    var share := percent / 100.0;
    MulMonotone(1.0 - share, 1.0, price);
    MulMonotone(1.0, 1.0 + share, price);
    if percent <= 100.0 { MulMonotone(0.0, 1.0 - share, price); }
  }

  /** Slippage never helps, whatever its percentages. */
  lemma SlippageIsAdverse(t: Trade, config: SlippageConfig)
    requires Genuine(t) && config.Valid()
    ensures Slipped(t, config).pnl <= t.pnl
  {
    Widen(t.entryPrice, config.entryPercent);
    Widen(t.exitPrice, config.exitPercent);
    var s := Slipped(t, config);
    WorseFillsEarnLess(t.direction, t.entryPrice, t.exitPrice, s.entryPrice, s.exitPrice, t.quantity);
  }

  lemma WorseFillsEarnLess(direction: Direction, entry: real, exit: real, entry': real, exit': real, quantity: int)
    requires quantity >= 0
    requires if direction == Short then entry' <= entry && exit <= exit' else entry <= entry' && exit' <= exit
    ensures SignedPnl(direction, entry', exit', quantity) <= SignedPnl(direction, entry, exit, quantity)
  {
    if direction == Short {
      MulMonotone(exit - entry, exit' - entry', quantity as real);
    } else {
      MulMonotone(exit' - entry', exit - entry, quantity as real);
    }
    ToMoneyMonotone(Gain(direction, entry', exit', quantity), Gain(direction, entry, exit, quantity));
  }

  // ---------------------------------------------------------------- commission

  /** Charging a commission leaves the pnl no higher exactly when the cost is not negative enough to be rounded up:
      less than half a unit of money, or exactly half of one beside an even pnl. */
  lemma CommissionIsAdverseIff(t: Trade, config: CommissionConfig)
    ensures var refund := -Cost(t, config) * UNITS;
            Charged(t, config).pnl <= t.pnl <==> refund < 0.5 || (refund == 0.5 && t.pnl % 2 == 0)
  {
    assert (Amount(t.pnl) - Cost(t, config)) * UNITS == t.pnl as real + -Cost(t, config) * UNITS;
  }

  /** A round trip of non-negative notional value. */
  predicate NonNegativeNotional(t: Trade) { t.entryPrice + t.exitPrice >= 0.0 && t.quantity >= 0 }

  lemma PercentNonNegative(value: real, percent: real)
    requires percent >= 0.0 && (value >= 0.0 || percent == 0.0)
    ensures value * percent / 100.0 >= 0.0
  {
    if percent == 0.0 { assert value * percent == 0.0; } else { MulMonotone(0.0, value, percent); }
  }

  lemma CostNonNegative(t: Trade, config: CommissionConfig)
    requires config.Valid() && (config.percent == 0.0 || NonNegativeNotional(t))
    ensures Cost(t, config) >= 0.0
  {
    var value := (t.entryPrice + t.exitPrice) * t.quantity as real;
    if config.percent != 0.0 { MulMonotone(0.0, t.entryPrice + t.exitPrice, t.quantity as real); }
    PercentNonNegative(value, config.percent);
    assert Cost(t, config) == value * config.percent / 100.0 + config.flat;
  }

  /** Up to 100 percent, slippage leaves the notional non-negative. */
  lemma SlippageKeepsNotional(t: Trade, config: SlippageConfig)
    requires Genuine(t) && config.Valid() && config.entryPercent <= 100.0 && config.exitPercent <= 100.0
    ensures NonNegativeNotional(Slipped(t, config))
  {
    hide SignedPnl;
    Widen(t.entryPrice, config.entryPercent);
    Widen(t.exitPrice, config.exitPercent);
    var s := Slipped(t, config);
    assert s.entryPrice >= 0.0 && s.exitPrice >= 0.0 && s.quantity == t.quantity;
  }

  /** No genuine trade has a negative notional after slippage. */
  ghost predicate SlippageKeepsNotionals(config: SlippageConfig) {
    forall t :: Genuine(t) ==> NonNegativeNotional(Slipped(t, config))
  }

  /** Exactly up to 100 percent on either side. */
  lemma SlippageKeepsNotionalIff(config: SlippageConfig)
    requires config.Valid()
    ensures SlippageKeepsNotionals(config) <==> config.entryPercent <= 100.0 && config.exitPercent <= 100.0
  {
    if config.entryPercent <= 100.0 && config.exitPercent <= 100.0 {
      forall t | Genuine(t) ensures NonNegativeNotional(Slipped(t, config)) {
        SlippageKeepsNotional(t, config);
      }
    } else {
      var t := OneSided(if config.exitPercent > 100.0 then Long else Short, 1);
      assert Genuine(t) && !NonNegativeNotional(Slipped(t, config));
    }
  }

  /** Commission never raises the pnl of a slipped genuine trade. */
  ghost predicate CommissionNeverHelps(slippage: SlippageConfig, commission: CommissionConfig) {
    forall t :: Genuine(t) ==> Charged(Slipped(t, slippage), commission).pnl <= Slipped(t, slippage).pnl
  }

  /** Exactly then: there is no percentage commission, or no slippage above 100 percent. */
  lemma CommissionNeverHelpsIff(slippage: SlippageConfig, commission: CommissionConfig)
    requires slippage.Valid() && commission.Valid()
    ensures CommissionNeverHelps(slippage, commission)
            <==> commission.percent == 0.0 || (slippage.entryPercent <= 100.0 && slippage.exitPercent <= 100.0)
  {
    hide Charged, Slipped;
    if commission.percent == 0.0 || (slippage.entryPercent <= 100.0 && slippage.exitPercent <= 100.0) {
      forall t | Genuine(t) ensures Charged(Slipped(t, slippage), commission).pnl <= Slipped(t, slippage).pnl {
        if commission.percent != 0.0 { SlippageKeepsNotional(t, slippage); }
        CostNonNegative(Slipped(t, slippage), commission);
        hide Cost;
        CommissionIsAdverseIff(Slipped(t, slippage), commission);
      }
    } else if slippage.exitPercent > 100.0 {
      var t := RefundedTrade(Long, slippage, commission);
      CommissionIsAdverseIff(Slipped(t, slippage), commission);
    } else {
      var t := RefundedTrade(Short, slippage, commission);
      CommissionIsAdverseIff(Slipped(t, slippage), commission);
    }
  }

  /** A quantity at which a positive amount per unit exceeds a bound. */
  lemma EnoughUnits(perUnit: real, bound: real) returns (quantity: int)
    requires perUnit > 0.0
    ensures quantity >= 0 && quantity as real * perUnit >= bound
  {
    quantity := Max(0, (bound / perUnit).Floor + 1);
    assert bound == bound / perUnit * perUnit;
    MulMonotone(bound / perUnit, quantity as real, perUnit);
  }

  /** A genuine trade with nothing paid and one unit of price received per unit of quantity, large enough that its
      slipped round trip, of negative value, is refunded more than the flat fee. */
  lemma RefundedTrade(direction: Direction, slippage: SlippageConfig, commission: CommissionConfig) returns (t: Trade)
    requires direction != NoDirection && commission.percent > 0.0 && commission.flat >= 0.0
    requires (if direction == Short then slippage.entryPercent else slippage.exitPercent) > 100.0
    ensures Genuine(t) && Cost(Slipped(t, slippage), commission) <= -1.0
  {
    var over := (if direction == Short then slippage.entryPercent else slippage.exitPercent) / 100.0 - 1.0;
    var share := commission.percent / 100.0;
    MulPositive(over, share);
    var quantity := EnoughUnits(over * share, commission.flat + 1.0);
    t := OneSided(direction, quantity);
    var s := Slipped(t, slippage);
    assert s.entryPrice + s.exitPrice == -over;
    assert Cost(s, commission) == commission.flat - over * quantity as real * share;
    assert over * quantity as real * share == quantity as real * (over * share);
  }

  /** One such configuration: both are validated, and charging commission raises the pnl by ten. */
  lemma ExcessiveSlippageTurnsCommissionAround()
    ensures var t := GenuineTrade(Long, 100.0, 100.0, 1);
            var slippage := SlippageConfig(0.0, 300.0);
            var commission := CommissionConfig(10.0, 0.0);
            && Genuine(t) && slippage.Valid() && commission.Valid()
            && Charged(Slipped(t, slippage), commission).pnl == Slipped(t, slippage).pnl + 100000
  {
    var t := GenuineTrade(Long, 100.0, 100.0, 1);
    var s := Slipped(t, SlippageConfig(0.0, 300.0));
    assert s.entryPrice == 100.0 && s.exitPrice == -200.0;
    assert Gain(Long, 100.0, -200.0, 1) * UNITS == -3000000.0;
    RoundWhole(-3000000);
    assert Cost(s, CommissionConfig(10.0, 0.0)) == -10.0;
    assert (Amount(s.pnl) + 10.0) * UNITS == -2900000.0;
    RoundWhole(-2900000);
  }

  // ---------------------------------------------------------------- both together

  /** What a trade earns after both costs, before any rounding. */
  function Net(t: Trade, slippage: SlippageConfig, commission: CommissionConfig): real {
    var s := Slipped(t, slippage);
    Gain(s.direction, s.entryPrice, s.exitPrice, s.quantity) - Cost(s, commission)
  }

  function GainOf(t: Trade): real { Gain(t.direction, t.entryPrice, t.exitPrice, t.quantity) }

  /** The refund on a price turned negative by slippage does not outweigh the slippage. */
  predicate Bearable(percent: real, commission: real) { percent * (commission - 100.0) <= 100.0 * commission }

  predicate BothBearable(slippage: SlippageConfig, commission: CommissionConfig) {
    Bearable(slippage.entryPercent, commission.percent) && Bearable(slippage.exitPercent, commission.percent)
  }

  /** The side of a trade on which money is received, and the slippage of that side. */
  function Received(t: Trade): real { if t.direction == Short then t.entryPrice else t.exitPrice }
  function Paid(t: Trade): real { if t.direction == Short then t.exitPrice else t.entryPrice }

  function ReceivedShare(t: Trade, slippage: SlippageConfig): real {
    (if t.direction == Short then slippage.entryPercent else slippage.exitPercent) / 100.0
  }

  function PaidShare(t: Trade, slippage: SlippageConfig): real {
    (if t.direction == Short then slippage.exitPercent else slippage.entryPercent) / 100.0
  }

  /** What slippage makes of the two sides. */
  function SlippedReceived(t: Trade, slippage: SlippageConfig): real {
    Received(t) * (1.0 - ReceivedShare(t, slippage))
  }

  function SlippedPaid(t: Trade, slippage: SlippageConfig): real { Paid(t) * (1.0 + PaidShare(t, slippage)) }

  lemma SlippedSides(t: Trade, slippage: SlippageConfig)
    ensures Received(Slipped(t, slippage)) == SlippedReceived(t, slippage)
    ensures Paid(Slipped(t, slippage)) == SlippedPaid(t, slippage)
  {
  }

  lemma GainOfSides(t: Trade)
    ensures GainOf(t) == (Received(t) - Paid(t)) * t.quantity as real
  {
    if t.direction == Short {
      var q := t.quantity as real;
      assert -((t.exitPrice - t.entryPrice) * q) == (t.entryPrice - t.exitPrice) * q;
    }
  }

  lemma CostOfSides(t: Trade, commission: CommissionConfig)
    ensures Cost(t, commission)
            == (Received(t) + Paid(t)) * t.quantity as real * (commission.percent / 100.0) + commission.flat
  {
    var value := (t.entryPrice + t.exitPrice) * t.quantity as real;
    assert value == (Received(t) + Paid(t)) * t.quantity as real;
    assert value * commission.percent / 100.0 == value * (commission.percent / 100.0);
  }

  /** What both costs leave of one unit, but for the flat fee. */
  function LeftPerUnit(t: Trade, slippage: SlippageConfig, commission: CommissionConfig): real {
    SlippedReceived(t, slippage) * (1.0 - commission.percent / 100.0)
    - SlippedPaid(t, slippage) * (1.0 + commission.percent / 100.0)
  }

  lemma NetArithmetic(received: real, paid: real, q: real, share: real)
    ensures (received - paid) * q - (received + paid) * q * share
            == (received * (1.0 - share) - paid * (1.0 + share)) * q
  {
  }

  /** Both costs in terms of what is received and what is paid. */
  lemma NetOfSides(t: Trade, slippage: SlippageConfig, commission: CommissionConfig)
    ensures GainOf(Slipped(t, slippage))
            == (SlippedReceived(t, slippage) - SlippedPaid(t, slippage)) * t.quantity as real
    ensures Cost(Slipped(t, slippage), commission)
            == (SlippedReceived(t, slippage) + SlippedPaid(t, slippage)) * t.quantity as real
               * (commission.percent / 100.0) + commission.flat
  {
    var s := Slipped(t, slippage);
    assert s.quantity == t.quantity;
    SlippedSides(t, slippage);
    hide *;
    GainOfSides(s);
    CostOfSides(s, commission);
  }

  lemma NetOfOneUnit(t: Trade, slippage: SlippageConfig, commission: CommissionConfig)
    ensures Net(t, slippage, commission)
            == LeftPerUnit(t, slippage, commission) * t.quantity as real - commission.flat
  {
    var s := Slipped(t, slippage);
    NetOfSides(t, slippage, commission);
    assert Net(t, slippage, commission) == GainOf(s) - Cost(s, commission);
    var received, paid, share := SlippedReceived(t, slippage), SlippedPaid(t, slippage), commission.percent / 100.0;
    assert LeftPerUnit(t, slippage, commission) == received * (1.0 - share) - paid * (1.0 + share);
    hide *;
    NetArithmetic(received, paid, t.quantity as real, share);
  }

  lemma BearableShares(percent: real, commission: real)
    ensures var p, share := percent / 100.0, commission / 100.0;
            Bearable(percent, commission) <==> p * share - p - share <= 0.0
  {
    var p, share := percent / 100.0, commission / 100.0;
    assert percent * (commission - 100.0) == 10000.0 * (p * share - p);
  }

  /** What is left of an amount received and what becomes of an amount paid. */
  lemma SidesShrink(received: real, paid: real, p: real, p': real, share: real)
    requires received >= 0.0 && paid >= 0.0 && p' >= 0.0 && share >= 0.0 && p * share - p - share <= 0.0
    ensures received * (1.0 - p) * (1.0 - share) - paid * (1.0 + p') * (1.0 + share) <= received - paid
  {
    ShareLeft(received, p, share);
    ShareAdded(paid, p', share);
  }

  lemma ShareAdded(paid: real, p: real, share: real)
    requires paid >= 0.0 && p >= 0.0 && share >= 0.0
    ensures paid <= paid * (1.0 + p) * (1.0 + share)
  {
    var once := paid * (1.0 + p);
    MulMonotone(0.0, p, paid);
    assert once == paid + p * paid;
    MulMonotone(0.0, share, once);
    assert once * (1.0 + share) == once + share * once;
  }

  lemma ShareLeft(received: real, p: real, share: real)
    requires received >= 0.0 && p * share - p - share <= 0.0
    ensures received * (1.0 - p) * (1.0 - share) <= received
  {
    var left := (1.0 - p) * (1.0 - share);
    assert left == 1.0 + (p * share - p - share);
    MulMonotone(left, 1.0, received);
    assert received * (1.0 - p) * (1.0 - share) == left * received;
  }

  lemma FactsOf(t: Trade, slippage: SlippageConfig, commission: CommissionConfig)
    requires Genuine(t) && slippage.Valid() && commission.Valid()
    ensures Received(t) >= 0.0 && 0.0 <= Paid(t) <= SlippedPaid(t, slippage) && t.quantity >= 0
    ensures commission.percent / 100.0 >= 0.0 && commission.flat >= 0.0
    ensures t.pnl == ToMoney(GainOf(t))
    ensures Slipped(t, slippage).pnl == ToMoney(GainOf(Slipped(t, slippage)))
    ensures Charged(Slipped(t, slippage), commission).pnl
            == ToMoney(Amount(Slipped(t, slippage).pnl) - Cost(Slipped(t, slippage), commission))
  {
    hide ToMoney, Gain, Cost;
    Widen(Paid(t), PaidShare(t, slippage) * 100.0);
  }

  lemma BearableLeaves(t: Trade, slippage: SlippageConfig, commission: CommissionConfig)
    requires Genuine(t) && slippage.Valid() && commission.Valid() && BothBearable(slippage, commission)
    ensures LeftPerUnit(t, slippage, commission) <= Received(t) - Paid(t)
  {
    BearableShares(if t.direction == Short then slippage.entryPercent else slippage.exitPercent, commission.percent);
    var received, paid, p, p' := Received(t), Paid(t), ReceivedShare(t, slippage), PaidShare(t, slippage);
    var share := commission.percent / 100.0;
    assert LeftPerUnit(t, slippage, commission)
        == received * (1.0 - p) * (1.0 - share) - paid * (1.0 + p') * (1.0 + share);
    assert received >= 0.0 && paid >= 0.0 && p' >= 0.0 && share >= 0.0 && p * share - p - share <= 0.0;
    hide *;
    SidesShrink(received, paid, p, p', share);
  }

  /** Bearable costs lower every genuine trade before rounding, by the flat fee at least. */
  lemma BearableLowersNet(t: Trade, slippage: SlippageConfig, commission: CommissionConfig)
    requires Genuine(t) && slippage.Valid() && commission.Valid() && BothBearable(slippage, commission)
    ensures Net(t, slippage, commission) <= GainOf(t) - commission.flat <= GainOf(t)
  {
    hide *;
    FactsOf(t, slippage, commission);
    BearableLeaves(t, slippage, commission);
    NetOfOneUnit(t, slippage, commission);
    GainOfSides(t);
    MulMonotone(LeftPerUnit(t, slippage, commission), Received(t) - Paid(t), t.quantity as real);
  }

  lemma OneSidedLeaves(direction: Direction, quantity: int, slippage: SlippageConfig, commission: CommissionConfig)
    requires direction != NoDirection && quantity >= 0
    ensures var t := OneSided(direction, quantity);
            var p := (if direction == Short then slippage.entryPercent else slippage.exitPercent) / 100.0;
            && Genuine(t) && t.quantity == quantity && Received(t) - Paid(t) == 1.0
            && LeftPerUnit(t, slippage, commission) == (1.0 - p) * (1.0 - commission.percent / 100.0)
  {
    var t := OneSided(direction, quantity);
    hide SignedPnl;
    assert SlippedPaid(t, slippage) == 0.0;
    assert SlippedReceived(t, slippage) == 1.0 - ReceivedShare(t, slippage);
  }

  /** A genuine trade that unbearable costs turn into a gain of at least one. */
  lemma UnbearableTrade(direction: Direction, slippage: SlippageConfig, commission: CommissionConfig) returns (t: Trade)
    requires direction != NoDirection && commission.flat >= 0.0
    requires !Bearable(if direction == Short then slippage.entryPercent else slippage.exitPercent, commission.percent)
    ensures Genuine(t) && Net(t, slippage, commission) >= GainOf(t) + 1.0
  {
    hide *;
    var percent := if direction == Short then slippage.entryPercent else slippage.exitPercent;
    var p, share := percent / 100.0, commission.percent / 100.0;
    BearableShares(percent, commission.percent);
    var quantity := EnoughUnits(p * share - p - share, commission.flat + 1.0);
    t := OneSided(direction, quantity);
    OneSidedLeaves(direction, quantity, slippage, commission);
    NetOfOneUnit(t, slippage, commission);
    GainOfSides(t);
    ExcessArithmetic(p, share, LeftPerUnit(t, slippage, commission), quantity as real, commission.flat);
  }

  lemma ExcessArithmetic(p: real, share: real, left: real, q: real, flat: real)
    requires left == (1.0 - p) * (1.0 - share) && q * (p * share - p - share) >= flat + 1.0
    ensures left * q - flat >= 1.0 * q + 1.0
  {
    var excess := p * share - p - share;
    assert left == 1.0 + excess;
    assert left * q == q + q * excess;
  }

  /** What both costs leave of a trade, rounded twice, is within one unit of the unrounded net. */
  lemma ChargedNearNet(t: Trade, slippage: SlippageConfig, commission: CommissionConfig)
    ensures Abs(Amount(Charged(Slipped(t, slippage), commission).pnl) - Net(t, slippage, commission)) <= 0.0001
  {
    var s := Slipped(t, slippage);
    ToMoneyNear(GainOf(s));
    ToMoneyNear(Amount(s.pnl) - Cost(s, commission));
    assert s.pnl == ToMoney(GainOf(s));
  }

  /** Both costs together never raise the pnl of a genuine trade by more than a slack. */
  ghost predicate CostsNeverHelp(slippage: SlippageConfig, commission: CommissionConfig, slack: Money) {
    forall t :: Genuine(t) ==> Charged(Slipped(t, slippage), commission).pnl <= t.pnl + slack
  }

  ghost predicate CostsNeverHelpUnrounded(slippage: SlippageConfig, commission: CommissionConfig) {
    forall t :: Genuine(t) ==> Net(t, slippage, commission) <= GainOf(t)
  }

  /** Slippage and commission together never help a genuine trade exactly when both are bearable; after the two
      roundings the same condition decides whether they help by more than one ten-thousandth. */
  lemma CostsNeverHelpIff(slippage: SlippageConfig, commission: CommissionConfig)
    requires slippage.Valid() && commission.Valid()
    ensures CostsNeverHelpUnrounded(slippage, commission) <==> BothBearable(slippage, commission)
    ensures CostsNeverHelp(slippage, commission, 1) <==> BothBearable(slippage, commission)
  {
    hide Bearable, Net, GainOf, Charged, Slipped;
    if BothBearable(slippage, commission) {
      forall t | Genuine(t)
        ensures Net(t, slippage, commission) <= GainOf(t)
        ensures Charged(Slipped(t, slippage), commission).pnl <= t.pnl + 1
      {
        BearableLowersNet(t, slippage, commission);
        RoundedNet(t, slippage, commission);
      }
    } else {
      var direction := if Bearable(slippage.exitPercent, commission.percent) then Short else Long;
      var t := UnbearableTrade(direction, slippage, commission);
      ChargedNearNet(t, slippage, commission);
      BaselineNear(t);
      assert Genuine(t) && Charged(Slipped(t, slippage), commission).pnl > t.pnl + 1;
    }
  }

  lemma BaselineNear(t: Trade)
    requires Genuine(t)
    ensures t.pnl == ToMoney(GainOf(t)) && Abs(Amount(t.pnl) - GainOf(t)) <= 0.00005
  {
    ToMoneyNear(GainOf(t));
  }

  /** Rounding before and after a cost ends at most one unit above rounding a higher gain once, and not above it
      when the gain is higher by half a unit. */
  lemma TipsByOne(gain: real, slipped: real, cost: real)
    requires slipped - cost <= gain
    ensures ToMoney(Amount(ToMoney(slipped)) - cost) <= ToMoney(gain) + 1
    ensures slipped - cost <= gain - HALF_UNIT ==> ToMoney(Amount(ToMoney(slipped)) - cost) <= ToMoney(gain)
  {
    ToMoneyNear(slipped);
    if slipped - cost <= gain - HALF_UNIT { ToMoneyMonotone(Amount(ToMoney(slipped)) - cost, gain); }
    var x := (Amount(ToMoney(slipped)) - cost) * UNITS;
    assert x <= gain * UNITS + 0.5;
    RoundMonotone(x, gain * UNITS + 0.5);
    assert RoundHalfEven(gain * UNITS + 0.5) <= RoundHalfEven(gain * UNITS) + 1;
  }

  /** A net no higher than the gain is rounded to at most one unit more. */
  lemma RoundedNet(t: Trade, slippage: SlippageConfig, commission: CommissionConfig)
    requires Genuine(t) && Net(t, slippage, commission) <= GainOf(t)
    ensures Charged(Slipped(t, slippage), commission).pnl <= t.pnl + 1
    ensures Net(t, slippage, commission) <= GainOf(t) - HALF_UNIT ==>
              Charged(Slipped(t, slippage), commission).pnl <= t.pnl
  {
    var s := Slipped(t, slippage);
    assert s.pnl == ToMoney(GainOf(s)) && t.pnl == ToMoney(GainOf(t));
    hide Slipped, Cost, GainOf, ToMoney;
    TipsByOne(GainOf(t), GainOf(s), Cost(s, commission));
  }

  /** That unit is real: bearable costs under which a trade that earns nothing after rounding is paid one. */
  lemma RoundingCanTip()
    ensures var t := GenuineTrade(Long, 0.0, 0.000049, 1);
            var slippage, commission := SlippageConfig(0.0, 200.0), CommissionConfig(150.0, 0.0);
            && Genuine(t) && slippage.Valid() && commission.Valid() && BothBearable(slippage, commission)
            && Charged(Slipped(t, slippage), commission).pnl == t.pnl + 1
  {
    var t := GenuineTrade(Long, 0.0, 0.000049, 1);
    var s := Slipped(t, SlippageConfig(0.0, 200.0));
    assert s.entryPrice == 0.0 && s.exitPrice == -0.000049;
    assert Gain(Long, 0.0, 0.000049, 1) * UNITS == 0.49;
    assert Gain(Long, 0.0, -0.000049, 1) * UNITS == -0.49;
    assert s.pnl == 0 && t.pnl == 0;
    assert (Amount(0) - Cost(s, CommissionConfig(150.0, 0.0))) * UNITS == 0.735;
  }

  /** Rounding before and after a refund that is at most what a negative round trip is worth, against rounding the
      untouched trade once; all amounts in units of money. */
  lemma TwoRoundings(received: real, paid: real, received': real, paid': real, cost: real)
    requires received >= 0.0 && 0.0 <= paid <= paid' && received' + paid' <= cost
    ensures RoundHalfEven(RoundHalfEven(received' - paid') as real - cost) <= RoundHalfEven(received - paid)
  {
    AtMostHalfMore(received' - paid');
    hide RoundHalfEven;
    var once := RoundHalfEven(received' - paid') as real;
    RoundMonotone(once - cost, -2.0 * paid + 0.5);
    RoundMonotone(-paid, received - paid);
    HalfBelow(paid);
  }

  lemma AtMostHalfMore(x: real)
    ensures RoundHalfEven(x) as real <= x + 0.5
  {
  }

  lemma HalfBelow(paid: real)
    requires paid >= 0.0
    ensures RoundHalfEven(-2.0 * paid + 0.5) <= RoundHalfEven(-paid)
  {
    if paid > 0.5 { RoundMonotone(-2.0 * paid + 0.5, -paid); } else { RoundMonotone(-0.5, -paid); }
  }

  /** A commission of at most 100 percent dominates whatever the slippage, rounding included. */
  lemma ModestCommissionIsAdverse(t: Trade, slippage: SlippageConfig, commission: CommissionConfig)
    requires Genuine(t) && slippage.Valid() && commission.Valid() && commission.percent <= 100.0
    ensures Charged(Slipped(t, slippage), commission).pnl <= t.pnl
  {
    var s := Slipped(t, slippage);
    if Cost(s, commission) >= 0.0 {
      CommissionIsAdverseIff(s, commission);
      SlippageIsAdverse(t, slippage);
    } else {
      RefundIsOutweighed(t, slippage, commission);
    }
  }

  lemma RefundIsOutweighed(t: Trade, slippage: SlippageConfig, commission: CommissionConfig)
    requires Genuine(t) && slippage.Valid() && commission.Valid() && commission.percent <= 100.0
    requires Cost(Slipped(t, slippage), commission) < 0.0
    ensures Charged(Slipped(t, slippage), commission).pnl <= t.pnl
  {
    hide *;
    var s := Slipped(t, slippage);
    FactsOf(t, slippage, commission);
    GainOfSides(t);
    NetOfSides(t, slippage, commission);
    RefundRounded(Received(t), Paid(t), SlippedReceived(t, slippage), SlippedPaid(t, slippage), t.quantity as real,
                  commission.percent / 100.0, commission.flat, GainOf(t), GainOf(s), Cost(s, commission));
  }

  lemma ScaledSides(x: real, y: real, q: real)
    ensures (x - y) * q * UNITS == x * q * UNITS - y * q * UNITS
    ensures (x + y) * q * UNITS == x * q * UNITS + y * q * UNITS
  {
  }

  lemma Scaled(x: real, y: real, q: real)
    requires x <= y && q >= 0.0
    ensures x * q * UNITS <= y * q * UNITS
  {
    MulMonotone(x, y, q);
  }

  /** A negative cost is at least the negative value it is a part of. */
  lemma CostOfNegative(value: real, share: real, flat: real)
    requires 0.0 <= share <= 1.0 && flat >= 0.0 && value * share + flat < 0.0
    ensures value <= value * share + flat
  {
    if value >= 0.0 {
      MulMonotone(0.0, value, share);
      assert false;
    } else {
      MulMonotone(share, 1.0, -value);
    }
  }

  /** The same refund in prices: both sides times a quantity. */
  lemma RefundRounded(received: real, paid: real, received': real, paid': real, q: real, share: real, flat: real,
                      gain: real, gain': real, cost: real)
    requires received >= 0.0 && 0.0 <= paid <= paid' && q >= 0.0 && 0.0 <= share <= 1.0 && flat >= 0.0
    requires gain == (received - paid) * q && gain' == (received' - paid') * q
    requires cost == (received' + paid') * q * share + flat && cost < 0.0
    ensures ToMoney(Amount(ToMoney(gain')) - cost) <= ToMoney(gain)
  {
    hide ToMoney, Amount;
    CostOfNegative((received' + paid') * q, share, flat);
    Scaled(0.0, received, q);
    Scaled(0.0, paid, q);
    Scaled(paid, paid', q);
    ScaledSides(received, paid, q);
    ScaledSides(received', paid', q);
    RefundInUnits(gain, gain', cost, received * q * UNITS, paid * q * UNITS, received' * q * UNITS, paid' * q * UNITS);
  }

  lemma RefundInUnits(gain: real, gain': real, cost: real, r: real, p: real, r': real, p': real)
    requires r >= 0.0 && 0.0 <= p <= p' && r' + p' <= cost * UNITS
    requires gain * UNITS == r - p && gain' * UNITS == r' - p'
    ensures ToMoney(Amount(ToMoney(gain')) - cost) <= ToMoney(gain)
  {
    hide RoundHalfEven;
    TwoRoundings(r, p, r', p', cost * UNITS);
    var once := ToMoney(gain');
    assert (Amount(once) - cost) * UNITS == once as real - cost * UNITS;
  }

  /** Settings for which rounding cannot tip a bearable cost: a flat fee of at least half a ten-thousandth, or one of
      the two percentages small enough for a refund never to arise or to be outweighed. */
  predicate RoundingIsHarmless(slippage: SlippageConfig, commission: CommissionConfig) {
    || commission.flat >= HALF_UNIT
    || commission.percent <= 100.0
    || (slippage.entryPercent <= 100.0 && slippage.exitPercent <= 100.0)
  }

  lemma HarmlessIsAdverse(t: Trade, slippage: SlippageConfig, commission: CommissionConfig)
    requires Genuine(t) && slippage.Valid() && commission.Valid()
    requires BothBearable(slippage, commission) && RoundingIsHarmless(slippage, commission)
    ensures Charged(Slipped(t, slippage), commission).pnl <= t.pnl
  {
    hide Genuine, Slipped, Charged, Cost, Net, GainOf, Bearable, BothBearable;
    if commission.percent <= 100.0 {
      ModestCommissionIsAdverse(t, slippage, commission);
    } else if commission.flat >= HALF_UNIT {
      BearableLowersNet(t, slippage, commission);
      RoundedNet(t, slippage, commission);
    } else {
      SlippageKeepsNotional(t, slippage);
      CostNonNegative(Slipped(t, slippage), commission);
      CommissionIsAdverseIff(Slipped(t, slippage), commission);
      SlippageIsAdverse(t, slippage);
    }
  }

  /** Rounding included, both costs together never help any genuine trade exactly when both are bearable, for all
      settings whose rounding is harmless; without that, being bearable is still necessary. */
  lemma CostsNeverHelpAtAllIff(slippage: SlippageConfig, commission: CommissionConfig)
    requires slippage.Valid() && commission.Valid()
    ensures CostsNeverHelp(slippage, commission, 0) ==> BothBearable(slippage, commission)
    ensures RoundingIsHarmless(slippage, commission) ==>
              (CostsNeverHelp(slippage, commission, 0) <==> BothBearable(slippage, commission))
  {
    CostsNeverHelpIff(slippage, commission);
    hide Genuine, Charged, Slipped, BothBearable, RoundingIsHarmless;
    if CostsNeverHelp(slippage, commission, 0) {
      assert CostsNeverHelp(slippage, commission, 1) by {
        forall t | Genuine(t) ensures Charged(Slipped(t, slippage), commission).pnl <= t.pnl + 1 {
          assert Charged(Slipped(t, slippage), commission).pnl <= t.pnl + 0;
        }
      }
    } else if RoundingIsHarmless(slippage, commission) && BothBearable(slippage, commission) {
      forall t | Genuine(t) ensures Charged(Slipped(t, slippage), commission).pnl <= t.pnl + 0 {
        HarmlessIsAdverse(t, slippage, commission);
      }
    }
  }

  // ---------------------------------------------------------------- the equity curve

  /** Every trade of one list earns at most what the same trade of another list earns, and a slack. */
  predicate Dominated(lower: seq<Trade>, upper: seq<Trade>, slack: nat) {
    |lower| == |upper| && forall i :: 0 <= i < |lower| ==> lower[i].pnl <= upper[i].pnl + slack
  }

  /** Between any two points of the curves, the dominated list gains no more. */
  lemma {:induction false} DominatedGains(lower: seq<Trade>, upper: seq<Trade>, slack: nat, i: nat, j: nat)
    requires Dominated(lower, upper, slack) && i <= j <= |lower|
    ensures Sum(lower[..j]) - Sum(lower[..i]) <= Sum(upper[..j]) - Sum(upper[..i]) + slack * (j - i)
  {
    if i < j {
      DominatedGains(lower, upper, slack, i, j - 1);
      assert lower[..j][..j - 1] == lower[..j - 1];
      assert upper[..j][..j - 1] == upper[..j - 1];
      assert slack * (j - i) == slack * (j - 1 - i) + slack;
    }
  }

  /** Every point of the equity curve is no higher, and the maximum drawdown no smaller, up to the slack of the
      trades before it. */
  lemma DominatedCurve(lower: seq<Trade>, upper: seq<Trade>, slack: nat, initial: Money)
    requires Dominated(lower, upper, slack)
    ensures forall k :: 0 <= k <= |lower| ==> CurveOf(lower, initial)[k] <= CurveOf(upper, initial)[k] + slack * k
    ensures MaxDrawdown(CurveOf(lower, initial)) >= MaxDrawdown(CurveOf(upper, initial)) - slack * |lower|
  {
    hide MaxDrawdown, SumOf;
    var low, high := CurveOf(lower, initial), CurveOf(upper, initial);
    forall k | 0 <= k <= |lower| ensures low[k] <= high[k] + slack * k {
      DominatedGains(lower, upper, slack, 0, k);
      assert lower[..0] == upper[..0];
    }
    MaxDrawdownIsLargestFall(low);
    MaxDrawdownIsLargestFall(high);
    var i: nat, j: nat :| FallsBy(high, i, j, MaxDrawdown(high));
    DominatedGains(lower, upper, slack, i, j);
    SlackGrows(slack, j - i, |lower|);
    assert low[i] - low[j] >= high[i] - high[j] - slack * (j - i);
  }

  lemma SlackGrows(slack: nat, i: nat, j: nat)
    requires i <= j
    ensures slack * i <= slack * j
  {
  }

  ghost predicate ValidCosts(config: Perturbations) {
    && (config.slippage.Some? ==> config.slippage.value.Valid())
    && (config.commission.Some? ==> config.commission.value.Valid())
  }

  /** Costs that cannot help any of the trades: not both enabled, or bearable with a harmless rounding, which a
      commission of at most 100 percent always is, or a slippage that turns none of their notionals negative. */
  ghost predicate CostsAreAdverse(trades: seq<Trade>, config: Perturbations) {
    && ValidCosts(config)
    && (config.slippage.Some? && config.commission.Some? ==>
          || config.commission.value.percent <= 100.0
          || (&& BothBearable(config.slippage.value, config.commission.value)
              && RoundingIsHarmless(config.slippage.value, config.commission.value))
          || forall t :: t in trades ==> NonNegativeNotional(Slipped(t, config.slippage.value)))
  }

  lemma CostsDominated(trades: seq<Trade>, config: Perturbations, i: nat)
    requires i < |trades| && Genuine(trades[i]) && CostsAreAdverse(trades, config)
    ensures WithCosts(trades, config)[i].pnl <= trades[i].pnl
  {
    var t := trades[i];
    hide Genuine, Slipped, Charged, Cost, BothBearable, RoundingIsHarmless;
    if config.slippage.Some? {
      var s := Slipped(t, config.slippage.value);
      SlippageIsAdverse(t, config.slippage.value);
      if config.commission.Some? {
        if config.commission.value.percent <= 100.0 {
          ModestCommissionIsAdverse(t, config.slippage.value, config.commission.value);
        } else if BothBearable(config.slippage.value, config.commission.value)
                  && RoundingIsHarmless(config.slippage.value, config.commission.value) {
          HarmlessIsAdverse(t, config.slippage.value, config.commission.value);
        } else {
          CostNonNegative(s, config.commission.value);
          CommissionIsAdverseIff(s, config.commission.value);
        }
      }
    } else if config.commission.Some? {
      GenuineNotional(t);
      CostNonNegative(t, config.commission.value);
      CommissionIsAdverseIff(t, config.commission.value);
    }
  }

  lemma GenuineNotional(t: Trade)
    requires Genuine(t)
    ensures NonNegativeNotional(t)
  {
  }

  /** Nothing after the costs: no delay, no missed trade, no resizing. */
  predicate CostsOnly(config: Perturbations) { config.delay.None? && config.missed.None? && !config.variation }

  /** Slippage then commission, on any list of genuine trades of both directions: every prefix of the equity
      curve is no higher and the maximum drawdown no smaller than without them. */
  lemma AdverseCostsDominate(trades: seq<Trade>, config: Perturbations, world: World, initial: Money)
    requires forall i :: 0 <= i < |trades| ==> Genuine(trades[i])
    requires CostsOnly(config) && CostsAreAdverse(trades, config)
    ensures var perturbed := WithCosts(trades, config);
            && Perturbed(trades, config, world) == Some(perturbed) && |perturbed| == |trades|
            && (forall k :: 0 <= k <= |trades| ==> CurveOf(perturbed, initial)[k] <= CurveOf(trades, initial)[k])
            && MaxDrawdown(CurveOf(perturbed, initial)) >= MaxDrawdown(CurveOf(trades, initial))
  {
    hide CostsAreAdverse, Genuine, Slipped, Charged, MaxDrawdown, SumOf;
    forall i | 0 <= i < |trades| ensures WithCosts(trades, config)[i].pnl <= trades[i].pnl {
      CostsDominated(trades, config, i);
    }
    DominatedCurve(WithCosts(trades, config), trades, 0, initial);
  }

  /** With costs that are merely bearable, the k-th point is at most k ten-thousandths higher and the maximum
      drawdown smaller by at most one per trade. */
  lemma BearableCostsNearlyDominate(trades: seq<Trade>, config: Perturbations, world: World, initial: Money)
    requires forall i :: 0 <= i < |trades| ==> Genuine(trades[i])
    requires CostsOnly(config) && ValidCosts(config) && config.slippage.Some? && config.commission.Some?
    requires BothBearable(config.slippage.value, config.commission.value)
    ensures var perturbed := WithCosts(trades, config);
            && Perturbed(trades, config, world) == Some(perturbed) && |perturbed| == |trades|
            && (forall k :: 0 <= k <= |trades| ==> CurveOf(perturbed, initial)[k] <= CurveOf(trades, initial)[k] + k)
            && MaxDrawdown(CurveOf(perturbed, initial)) >= MaxDrawdown(CurveOf(trades, initial)) - |trades|
  {
    var perturbed := WithCosts(trades, config);
    CostsNeverHelpIff(config.slippage.value, config.commission.value);
    hide BothBearable, Slipped, Charged, Genuine;
    forall i | 0 <= i < |trades| ensures perturbed[i].pnl <= trades[i].pnl + 1 {
      assert perturbed[i] == Charged(Slipped(trades[i], config.slippage.value), config.commission.value);
    }
    DominatedCurve(perturbed, trades, 1, initial);
  }

  /** A simulation with adverse costs and nothing after them, shuffled or not: it never ends with more capital than
      the baseline, and its drawdown is at least the net loss and at least the baseline's drawdown in the same
      order. */
  lemma SimulationIsAdverse(trades: seq<Trade>, initial: Money, config: Perturbations, world: World)
    requires forall t :: t in trades ==> Genuine(t)
    requires CostsOnly(config) && CostsAreAdverse(trades, config)
    ensures var result := Outcome(trades, initial, config, world);
            && result.Some?
            && result.value.finalCapital <= Measured(trades, initial).finalCapital
            && result.value.totalTrades == |trades|
            && result.value.maxDrawdown >= Max(0, -Sum(trades))
            && (!config.shuffle ==> result.value.maxDrawdown >= Measured(trades, initial).maxDrawdown)
  {
    var order := Processed(trades, config, world);
    if config.shuffle { ShuffledPermutes(trades, |trades|, world.swap); }
    SameTrades(trades, order, config);
    SumOfPermutation(PnlOf, order, trades);
    OrderIsAdverse(order, initial, config, world);
    hide Perturbed, MaxDrawdown, SumOf, Genuine, CostsAreAdverse;
  }

  /** A permutation has the same trades, with the same costs. */
  lemma SameTrades(trades: seq<Trade>, order: seq<Trade>, config: Perturbations)
    requires multiset(order) == multiset(trades)
    requires CostsAreAdverse(trades, config) && forall t :: t in trades ==> Genuine(t)
    ensures |order| == |trades|
    ensures CostsAreAdverse(order, config) && forall t :: t in order ==> Genuine(t)
  {
    hide Genuine, NonNegativeNotional, Slipped;
    forall t | t in order ensures t in trades {
      assert t in multiset(order);
    }
    assert |multiset(order)| == |multiset(trades)|;
  }

  lemma OrderIsAdverse(order: seq<Trade>, initial: Money, config: Perturbations, world: World)
    requires forall t :: t in order ==> Genuine(t)
    requires CostsOnly(config) && CostsAreAdverse(order, config)
    ensures Perturbed(order, config, world).Some?
    ensures var result := Measured(Perturbed(order, config, world).value, initial);
            && result.finalCapital <= initial + Sum(order)
            && result.totalTrades == |order|
            && result.maxDrawdown >= Max(0, -Sum(order))
            && result.maxDrawdown >= MaxDrawdown(CurveOf(order, initial))
  {
    AdverseCostsDominate(order, config, world, initial);
    DrawdownBounds(order, initial);
    hide Perturbed, WithCosts, MaxDrawdown, SumOf, Genuine, CostsAreAdverse;
    var perturbed := Perturbed(order, config, world).value;
    assert order[..|order|] == order && perturbed[..|perturbed|] == perturbed;
    assert CurveOf(perturbed, initial)[|order|] <= CurveOf(order, initial)[|order|];
  }
}
