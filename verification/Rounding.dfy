/** Money as fixed point, and the rounding that produces it.

    The platform rounds every money amount to four decimals.  Prices stay exact reals; an amount of
    money is the integer number of ten-thousandths it was rounded to, so adding amounts is exact. */
module Rounding {
  import opened Arithmetic

  /** An amount of money in units of 1/10000. */
  type Money = int

  const UNITS: real := 10000.0

  /** Half of a ten-thousandth. */
  const HALF_UNIT: real := 0.00005

  /** The real value of an amount. */
  function Amount(m: Money): real { m as real / UNITS }

  /** Round to the nearest integer, ties to the even neighbour. */
  function RoundHalfEven(x: real): int {
    var below := x.Floor;
    var rest := x - below as real;
    if rest < 0.5 || (rest == 0.5 && below % 2 == 0) then below else below + 1
  }

  /** round(x, 4) as an amount of money. */
  function ToMoney(x: real): Money { RoundHalfEven(x * UNITS) }

  /** round(x, digits) as a real, where unit is 10 to the power digits. */
  function RoundTo(x: real, unit: real): real
    requires unit > 0.0
  {
    RoundHalfEven(x * unit) as real / unit
  }

  lemma RoundMonotone(x: real, y: real)
    requires x <= y
    ensures RoundHalfEven(x) <= RoundHalfEven(y)
  {
  }

  lemma RoundWhole(n: int)
    ensures RoundHalfEven(n as real) == n
  {
  }

  lemma ToMoneyMonotone(x: real, y: real)
    requires x <= y
    ensures ToMoney(x) <= ToMoney(y)
  {
  }

  lemma ToMoneyOdd(x: real)
    ensures ToMoney(-x) == -ToMoney(x)
  {
  }

  /** Rounding to money moves a value by at most half a unit. */
  lemma ToMoneyNear(x: real)
    ensures Abs(Amount(ToMoney(x)) - x) <= HALF_UNIT
  {
  }

  lemma RoundToMonotone(x: real, y: real, unit: real)
    requires unit > 0.0 && x <= y
    ensures RoundTo(x, unit) <= RoundTo(y, unit)
  {
    assert x * unit <= y * unit;
    RoundMonotone(x * unit, y * unit);
  }

  /** Rounding is to the nearest integer, and to the even one of two that are equally near. */
  lemma RoundIsNearest(x: real, n: int)
    ensures RoundHalfEven(x) == n <==>
              Abs(x - n as real) < 0.5 || (Abs(x - n as real) == 0.5 && n % 2 == 0)
  {
  }

  /** Money counts ten-thousandths: ten thousand of them are one, and an amount is the nearest count, ties to even. */
  lemma MoneyIsNearest(x: real, m: Money)
    ensures Amount(m) * 10000.0 == m as real
    ensures ToMoney(x) == m <==>
              Abs(x * 10000.0 - m as real) < 0.5 || (Abs(x * 10000.0 - m as real) == 0.5 && m % 2 == 0)
  {
    RoundIsNearest(x * UNITS, m);
  }

  /** Rounding to some digits moves a value by at most half of the last one. */
  lemma RoundToNear(x: real, unit: real)
    requires unit > 0.0
    ensures Abs(RoundTo(x, unit) - x) <= 0.5 / unit
  {
    var n := RoundHalfEven(x * unit);
    RoundIsNearest(x * unit, n);
    hide RoundHalfEven;
    DivideBound(n as real, x, 0.5, unit);
  }
}
