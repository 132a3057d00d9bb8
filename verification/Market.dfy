/** Candles, the market clock and the direction of a trade. */
module Market {

  datatype Option<+T> = None | Some(value: T)

  /** An instant on the naive market clock, in microseconds. */
  type Time = int

  const MICROS_PER_MINUTE: int := 60_000_000
  const MICROS_PER_DAY: int := 86_400_000_000

  /** Minutes after midnight of the "15:30" clock time. */
  const MARKET_CLOSE: int := 930

  function DateOf(t: Time): int { t / MICROS_PER_DAY }

  /** The "HH:MM" clock time, as minutes after midnight. */
  function ClockOf(t: Time): int { (t % MICROS_PER_DAY) / MICROS_PER_MINUTE }

  lemma DateMonotone(s: Time, t: Time)
    requires s <= t
    ensures DateOf(s) <= DateOf(t)
  {
  }

  /** The date and the clock of an instant given by its date, its minute of the day and the rest of that minute. */
  lemma ClockReads(date: int, minute: int, micros: int)
    requires 0 <= minute < 24 * 60 && 0 <= micros < 60 * 1_000_000
    ensures var t := (date * 24 * 60 + minute) * 60 * 1_000_000 + micros;
            DateOf(t) == date && ClockOf(t) == minute
  {
  }

  datatype Direction = Long | Short | NoDirection

  datatype Candle = Candle(timestamp: Time, open: real, high: real, low: real, close: real, volume: int)

  /** The ordering of a candle's prices that a genuine candle satisfies. */
  predicate WellFormed(candle: Candle) {
    candle.low <= candle.close <= candle.high
  }

  predicate AllWellFormed(candles: seq<Candle>) {
    forall i :: 0 <= i < |candles| ==> WellFormed(candles[i])
  }
}
