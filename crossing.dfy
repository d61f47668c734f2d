/** The one-shot edge detector that decides whether a fresh price is an alarm crossing. */
module Crossing {
  import opened Types

  /** The side of the alarm price that the alarm watches for: at or above it, or at or below it. */
  predicate OnAlarmSide(price: real, alarmPrice: real, direction: Direction)
  {
    match direction
    case Above => price >= alarmPrice
    case Below => price <= alarmPrice
  }

  /**
   * `hasCrossed`: an unknown previous price stands for the new one; otherwise the
   * previous price must be strictly off the alarm side and the new one on it.
   */
  function HasCrossed(stock: StockRecord, latestPrice: real): (crossed: bool)
    ensures stock.lastPrice.None? ==> !crossed
    ensures crossed <==>
      stock.lastPrice.Some?
      && !OnAlarmSide(stock.lastPrice.value, stock.alarmPrice, stock.alarmDirection)
      && OnAlarmSide(latestPrice, stock.alarmPrice, stock.alarmDirection)
  {
    var prev := if stock.lastPrice.Some? then stock.lastPrice.value else latestPrice;
    if stock.alarmDirection == Above then
      prev < stock.alarmPrice && latestPrice >= stock.alarmPrice
    else
      prev > stock.alarmPrice && latestPrice <= stock.alarmPrice
  }

  /** The inequalities of the alarm rule written out per direction. */
  lemma CrossingInequalities(stock: StockRecord, latestPrice: real)
    requires stock.lastPrice.Some?
    ensures stock.alarmDirection == Above ==>
      (HasCrossed(stock, latestPrice) <==> stock.lastPrice.value < stock.alarmPrice <= latestPrice)
    ensures stock.alarmDirection == Below ==>
      (HasCrossed(stock, latestPrice) <==> stock.lastPrice.value > stock.alarmPrice >= latestPrice)
  {
  }

  /** Transitions onto the alarm side between consecutive observations: the reference count of alerts. */
  function Transitions(prices: seq<real>, alarmPrice: real, direction: Direction): (n: nat)
    ensures n <= if |prices| == 0 then 0 else |prices| - 1
  {
    if |prices| < 2 then 0
    else
      Transitions(prices[..|prices| - 1], alarmPrice, direction)
      + (if !OnAlarmSide(prices[|prices| - 2], alarmPrice, direction)
            && OnAlarmSide(prices[|prices| - 1], alarmPrice, direction)
         then 1 else 0)
  }

  /** A series that never leaves the alarm side after its first value has at most one transition. */
  lemma {:induction false} StayingOnSideTransitionsOnce(prices: seq<real>, alarmPrice: real, direction: Direction)
    requires forall i :: 1 <= i < |prices| ==> OnAlarmSide(prices[i], alarmPrice, direction)
    ensures Transitions(prices, alarmPrice, direction) ==
      if |prices| >= 2 && !OnAlarmSide(prices[0], alarmPrice, direction) then 1 else 0
  {
    if |prices| > 2 {
      StayingOnSideTransitionsOnce(prices[..|prices| - 1], alarmPrice, direction);
    }
  }
}
