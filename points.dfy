/**
 * The tiered points calculator: an amount earns 2 points per whole unit
 * above 100 and 1 point per whole unit between 50 and 100; the fraction is
 * discarded first.
 */
module Points {

  /**
   * `BigDecimal.intValue()`: the integer part, truncated toward zero
   * (the 32-bit wrap-around of huge values is not modelled).
   */
  function Trunc(x: real): (r: int)
    ensures 0.0 <= x ==> r as real <= x < r as real + 1.0
    ensures x < 0.0 ==> r as real - 1.0 < x <= r as real
  {
    if x >= 0.0 then x.Floor else -((-x).Floor)
  }

  /** The reward rule in closed form on the integer amount `a`. */
  function TieredPoints(a: int): (p: nat)
  {
    if a > 100 then 2 * (a - 100) + 50
    else if a > 50 then a - 50
    else 0
  }

  /** The points a decimal amount earns. */
  function PointsFor(amount: real): (p: nat)
  {
    TieredPoints(Trunc(amount))
  }

  /**
   * `calculatePoints`: accumulates the points tier by tier, capping the
   * integer amount at 100 after the upper tier, and equals the closed form.
   */
  method CalculatePoints(amount: real) returns (points: int)
    ensures points == PointsFor(amount)
    ensures points >= 0
  {
    points := 0;
    var amountInt := Trunc(amount);
    if amountInt > 100 {
      points := points + (amountInt - 100) * 2;
      amountInt := 100;
    }
    if amountInt > 50 {
      points := points + (amountInt - 50);
    }
  }

  /** The three tiers, each stated on the truncated amount. */
  lemma Tiers(amount: real)
    ensures Trunc(amount) <= 50 ==> PointsFor(amount) == 0
    ensures 50 < Trunc(amount) <= 100 ==> PointsFor(amount) == Trunc(amount) - 50
    ensures Trunc(amount) > 100 ==> PointsFor(amount) == 2 * (Trunc(amount) - 100) + 50
    ensures PointsFor(amount) == 0 <==> Trunc(amount) <= 50
  {
  }

  /** The concrete amounts of the calculator's unit tests. */
  lemma Examples()
    ensures PointsFor(120.0) == 90
    ensures PointsFor(100.0) == 50
    ensures PointsFor(70.0) == 20
    ensures PointsFor(40.0) == 0
    ensures PointsFor(120.99) == 90
  {
  }

  /** Truncation keeps the order of its arguments. */
  lemma TruncMonotone(x: real, y: real)
    requires x <= y
    ensures Trunc(x) <= Trunc(y)
  {
  }

  /** Only the integer part of the amount matters. */
  lemma DependsOnIntegerPart(x: real, y: real)
    requires Trunc(x) == Trunc(y)
    ensures PointsFor(x) == PointsFor(y)
    ensures PointsFor(x) == PointsFor(Trunc(x) as real)
  {
  }

  /** A larger amount never earns fewer points. */
  lemma PointsMonotone(x: real, y: real)
    requires x <= y
    ensures PointsFor(x) <= PointsFor(y)
  {
  }
}
