/** From the realized pnl back to the exit: price, reason and R-multiple. */
module ExitReasons {
  import opened Arithmetic
  import opened Market
  import opened Rounding
  import opened RiskEngine
  import opened PaperModels
  import opened SignalStep

  /** The directed move of a price away from the entry. */
  function Move(direction: Direction, entry: real, price: real): real {
    if direction == Short then entry - price else price - entry
  }

  /** The pnl per unit of an exit, as the tracker computes it from the rounded pnl. */
  function PerUnit(direction: Direction, entry: real, price: real, quantity: int): real
    requires quantity != 0
  {
    Amount(SignedPnl(direction, entry, price, quantity)) / quantity as real
  }

  lemma GainIsMove(direction: Direction, entry: real, price: real, quantity: int)
    ensures Gain(direction, entry, price, quantity) == Move(direction, entry, price) * quantity as real
  {
  }

  /** Rounding the pnl to four decimals moves the per-unit pnl by at most half a unit over the quantity. */
  lemma PerUnitNear(direction: Direction, entry: real, price: real, quantity: int)
    requires quantity >= 1
    ensures Abs(PerUnit(direction, entry, price, quantity) - Move(direction, entry, price))
            <= HALF_UNIT / quantity as real
    ensures HALF_UNIT / quantity as real <= HALF_UNIT
  {
    GainIsMove(direction, entry, price, quantity);
    ToMoneyNear(Gain(direction, entry, price, quantity));
    DivideBound(Amount(SignedPnl(direction, entry, price, quantity)), Move(direction, entry, price),
                HALF_UNIT, quantity as real);
    SmallerQuotient(HALF_UNIT, quantity as real);
  }

  lemma SmallerQuotient(x: real, q: real)
    requires q >= 1.0 && x >= 0.0
    ensures x / q <= x
  {
    assert (x / q) * q == x;
    DivideMonotone(0.0, x, q);
    MulMonotone(1.0, q, x / q);
  }

  function Inferred(direction: Direction, entry: real, price: real, quantity: int): real {
    InferExitPrice(direction, entry, SignedPnl(direction, entry, price, quantity), quantity)
  }

  /** The inferred price inverts the signed pnl up to half a unit over the quantity, for both directions. */
  lemma InferenceInvertsPnl(direction: Direction, entry: real, price: real, quantity: int)
    requires quantity >= 1
    ensures Abs(Inferred(direction, entry, price, quantity) - price) <= HALF_UNIT / quantity as real <= HALF_UNIT
  {
    PerUnitNear(direction, entry, price, quantity);
  }

  /** A target exit is always reported as one. */
  lemma TargetIsReported(direction: Direction, entry: real, stopLoss: real, target: real, quantity: int)
    requires quantity >= 1
    ensures InferExitReason(entry, stopLoss, target, Inferred(direction, entry, target, quantity)) == TargetExit
  {
    InferenceInvertsPnl(direction, entry, target, quantity);
  }

  /** A stop exit is reported as one exactly when the price inferred for it is out of the target's tolerance. */
  lemma StopIsReportedIff(direction: Direction, entry: real, stopLoss: real, target: real, quantity: int)
    requires quantity >= 1
    ensures InferExitReason(entry, stopLoss, target, Inferred(direction, entry, stopLoss, quantity)) == StopLossExit
            <==> Abs(Inferred(direction, entry, stopLoss, quantity) - target) > Tolerance(entry, target)
    ensures Abs(stopLoss - target) > Tolerance(entry, target) + HALF_UNIT / quantity as real ==>
              InferExitReason(entry, stopLoss, target, Inferred(direction, entry, stopLoss, quantity)) == StopLossExit
    ensures Abs(stopLoss - target) <= Tolerance(entry, target) - HALF_UNIT / quantity as real ==>
              InferExitReason(entry, stopLoss, target, Inferred(direction, entry, stopLoss, quantity)) == TargetExit
  {
    InferenceInvertsPnl(direction, entry, stopLoss, quantity);
  }

  /** For stop and target straddling the entry 0.01 decides, up to the rounding: wider brackets are never confused,
      narrower ones always are. */
  lemma StopIsReported(direction: Direction, entry: real, stopLoss: real, target: real, quantity: int)
    requires quantity >= 1 && Straddles(direction, entry, stopLoss, target)
    ensures Abs(stopLoss - target) > 0.01 + HALF_UNIT / quantity as real ==>
              InferExitReason(entry, stopLoss, target, Inferred(direction, entry, stopLoss, quantity)) == StopLossExit
    ensures Abs(stopLoss - target) <= 0.01 - HALF_UNIT / quantity as real ==>
              InferExitReason(entry, stopLoss, target, Inferred(direction, entry, stopLoss, quantity)) == TargetExit
  {
    InferenceInvertsPnl(direction, entry, stopLoss, quantity);
    StopIsReportedIff(direction, entry, stopLoss, target, quantity);
    hide Inferred, InferExitReason;
    assert Abs(target - entry) < Abs(stopLoss - target);
  }

  /** The risk engine does let closer brackets through at low prices: here it accepts a position of 250 units whose
      stop exit is then reported as a target hit. */
  lemma NarrowStopIsMisreported()
    ensures var config := RiskConfig(0.1, 0.5, 0.5, 10000.0, 5, 1, 100.0);
            var a := Assess(Long, 4.0, 0.008, config, CapitalState(1000.0, 0.0, 0.0, 0, 0));
            && config.Valid() && a.RiskOk()
            && a.positionSize == 250 && a.stopLoss == 3.996 && a.target == 4.004
            && InferExitReason(4.0, a.stopLoss, a.target, Inferred(Long, 4.0, a.stopLoss, 250)) == TargetExit
  {
    var config := RiskConfig(0.1, 0.5, 0.5, 10000.0, 5, 1, 100.0);
    assert PositionSize(1000.0, config, 0.004) == 250;
    StopIsReportedIff(Long, 4.0, 3.996, 4.004, 250);
    InferenceInvertsPnl(Long, 4.0, 3.996, 250);
  }

  // ---------------------------------------------------------------- R-multiple

  /** A per-unit pnl near a move, both in units of a positive risk. */
  lemma RatioNear(perUnit: real, move: real, risk: real)
    requires risk > 0.0 && Abs(perUnit - move) <= HALF_UNIT
    ensures Abs(perUnit / risk - move / risk) <= HALF_UNIT / risk
  {
    var ratio := move / risk;
    assert ratio * risk == move;
    DivideBound(perUnit, ratio, HALF_UNIT, risk);
  }

  /** The R-multiple of an exit is its directed move in units of risk, up to the rounding of the pnl. */
  lemma RMultipleMeasuresRisk(direction: Direction, entry: real, stopLoss: real, price: real, quantity: int)
    requires quantity >= 1 && entry != stopLoss
    ensures var risk := Abs(entry - stopLoss);
            Abs(RMultipleOf(entry, stopLoss, quantity, SignedPnl(direction, entry, price, quantity))
                - Move(direction, entry, price) / risk) <= HALF_UNIT / risk
  {
    PerUnitNear(direction, entry, price, quantity);
    RatioNear(PerUnit(direction, entry, price, quantity), Move(direction, entry, price), Abs(entry - stopLoss));
  }

  /** At the stop that is -1; at the target it is the reward over the risk. */
  lemma RMultipleAtBracket(direction: Direction, entry: real, stopLoss: real, target: real, quantity: int)
    requires quantity >= 1 && Straddles(direction, entry, stopLoss, target)
    ensures var risk, reward := Abs(entry - stopLoss), Abs(target - entry);
            && Abs(RMultipleOf(entry, stopLoss, quantity, SignedPnl(direction, entry, stopLoss, quantity)) + 1.0)
               <= HALF_UNIT / risk
            && Abs(RMultipleOf(entry, stopLoss, quantity, SignedPnl(direction, entry, target, quantity))
                   - reward / risk) <= HALF_UNIT / risk
  {
    hide RMultipleOf, SignedPnl;
    var risk, reward := Abs(entry - stopLoss), Abs(target - entry);
    RMultipleMeasuresRisk(direction, entry, stopLoss, stopLoss, quantity);
    RMultipleMeasuresRisk(direction, entry, stopLoss, target, quantity);
    assert Move(direction, entry, stopLoss) == -risk && Move(direction, entry, target) == reward;
    assert (-risk) / risk == -1.0;
  }
}
