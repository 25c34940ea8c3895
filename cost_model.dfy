/**
 * The fixed consumption scenarios of the dashboard: a shower uses 6 kWh, a bath
 * 8 kWh plus 160 litres of water at 30 kr per cubic metre. Prices are exact reals.
 */
module CostModel {

  const ShowerKwh: real := 6.0
  const BathKwh: real := 8.0
  const BathLiters: real := 160.0
  const WaterCostPerCubicMeter: real := 30.0

  /** Cost of the bath water; it does not depend on the electricity price. */
  function WaterCost(): (w: real)
    ensures w == 4.8
  {
    (BathLiters / 1000.0) * WaterCostPerCubicMeter
  }

  /** Electricity cost of using `kwh` kWh at `pricePerKwh` kr/kWh; no rounding. */
  function Cost(kwh: real, pricePerKwh: real): (c: real)
    ensures kwh > 0.0 ==> (c < 0.0 <==> pricePerKwh < 0.0)
    ensures kwh > 0.0 ==> (c == 0.0 <==> pricePerKwh == 0.0)
  {
    kwh * pricePerKwh
  }

  /** Bath cost: electricity for 8 kWh plus the constant water cost. */
  function BathCost(pricePerKwh: real): (c: real)
    ensures c == 8.0 * pricePerKwh + 4.8
  {
    Cost(BathKwh, pricePerKwh) + WaterCost()
  }

  /** Shower cost: electricity only. */
  function ShowerCost(pricePerKwh: real): (c: real)
    ensures c == 6.0 * pricePerKwh
    ensures pricePerKwh < 0.0 ==> c < 0.0
  {
    Cost(ShowerKwh, pricePerKwh)
  }

  /** A worked value: at 2 kr/kWh a bath costs 16 kr of electricity plus 4.80 kr of water. */
  lemma BathAtTwoKronor()
    ensures BathCost(2.0) == 20.8
    ensures ShowerCost(2.0) == 12.0
  {
  }

  /** With a non-negative energy amount, a higher price never gives a lower cost. */
  lemma CostMonotone(kwh: real, p: real, q: real)
    requires kwh >= 0.0 && p <= q
    ensures Cost(kwh, p) <= Cost(kwh, q)
    ensures kwh > 0.0 ==> (Cost(kwh, p) < Cost(kwh, q) <==> p < q)
  {
  }

  /**
   * Savings from waiting for a cheaper hour: when `now` is at least `cheapest`,
   * both savings are non-negative, and each is positive exactly when `now` is
   * strictly above `cheapest`.
   */
  lemma SavingsNonNegative(now: real, cheapest: real)
    requires cheapest <= now
    ensures ShowerCost(now) - ShowerCost(cheapest) >= 0.0
    ensures BathCost(now) - BathCost(cheapest) >= 0.0
    ensures ShowerCost(now) - ShowerCost(cheapest) > 0.0 <==> cheapest < now
    ensures BathCost(now) - BathCost(cheapest) > 0.0 <==> cheapest < now
  {
  }

  /** Bath cost is strictly increasing in the price, so it preserves order both ways. */
  lemma BathCostOrder(p: real, q: real)
    ensures BathCost(p) <= BathCost(q) <==> p <= q
    ensures BathCost(p) == BathCost(q) <==> p == q
  {
  }
}
