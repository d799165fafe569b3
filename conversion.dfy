/**
 * Unit conversion between minutes of balance and litres of a drink. A rate is
 * "litres equivalent to 60 minutes of exercise" for one drink.
 */
module Conversion {

  /** liters_from_minutes: litres equivalent to `minutes` at `rate`. */
  function LitersFromMinutes(minutes: real, rate: real): real
  {
    (minutes / 60.0) * rate
  }

  /** minutes_from_liters: minutes equivalent to `liters` at `rate`; 0 for a rate that is not positive. */
  function MinutesFromLiters(liters: real, rate: real): real
  {
    if rate <= 0.0 then 0.0 else (liters / rate) * 60.0
  }

  /** A rate that is not positive makes every amount worth zero minutes. */
  lemma NonPositiveRateGivesZero(liters: real, rate: real)
    requires rate <= 0.0
    ensures MinutesFromLiters(liters, rate) == 0.0
  {
  }

  /** Converting minutes to litres and back gives the minutes again. */
  lemma MinutesRoundTrip(minutes: real, rate: real)
    requires rate > 0.0
    ensures MinutesFromLiters(LitersFromMinutes(minutes, rate), rate) == minutes
  {
  }

  /** Converting litres to minutes and back gives the litres again. */
  lemma LitersRoundTrip(liters: real, rate: real)
    requires rate > 0.0
    ensures LitersFromMinutes(MinutesFromLiters(liters, rate), rate) == liters
  {
  }

  /** With a positive rate, a positive amount of either unit converts to a positive amount of the other. */
  lemma ConversionsPreserveSign(x: real, rate: real)
    requires rate > 0.0 && x > 0.0
    ensures MinutesFromLiters(x, rate) > 0.0
    ensures LitersFromMinutes(x, rate) > 0.0
  {
  }
}
