/** The server's daily points rule (backend/utils/points.py): 10, 20 or 30 points for
    the step tiers from 5000, 8000 and 10000 steps, minus 5 points for every unit of
    junk beyond the user's allowance. Nothing clamps the result. */
module PointsRule {

  /** `calculate_points`. */
  function CalculatePoints(steps: int, junkQuantity: int, maxAllowed: int): (points: int)
    ensures points <= 30
    ensures points % 5 == 0
    ensures junkQuantity <= maxAllowed ==> 0 <= points
  {
    var stepPoints :=
      if steps >= 10000 then 30
      else if steps >= 8000 then 20
      else if steps >= 5000 then 10
      else 0;
    if junkQuantity > maxAllowed then stepPoints - (junkQuantity - maxAllowed) * 5
    else stepPoints
  }

  /** Within the allowance the result is just the step tier. */
  lemma StepTiers(steps: int, junkQuantity: int, maxAllowed: int)
    requires junkQuantity <= maxAllowed
    ensures CalculatePoints(steps, junkQuantity, maxAllowed) == 30 <==> steps >= 10000
    ensures CalculatePoints(steps, junkQuantity, maxAllowed) == 20 <==> 8000 <= steps < 10000
    ensures CalculatePoints(steps, junkQuantity, maxAllowed) == 10 <==> 5000 <= steps < 8000
    ensures CalculatePoints(steps, junkQuantity, maxAllowed) == 0 <==> steps < 5000
  {
  }

  /** Each unit of junk over the allowance costs exactly 5 points. */
  lemma ExcessCostsFive(steps: int, junkQuantity: int, maxAllowed: int)
    requires junkQuantity >= maxAllowed
    ensures CalculatePoints(steps, junkQuantity + 1, maxAllowed)
            == CalculatePoints(steps, junkQuantity, maxAllowed) - 5
  {
  }

  /** The result can be negative: no steps and one unit over the allowance give -5. */
  lemma CanBeNegative()
    ensures CalculatePoints(0, 1, 0) == -5
  {
  }

  /** More steps and a larger allowance never lower the result; more junk never
      raises it. */
  lemma Monotonic(s1: int, s2: int, q1: int, q2: int, m1: int, m2: int)
    requires s1 <= s2 && q2 <= q1 && m1 <= m2
    ensures CalculatePoints(s1, q1, m1) <= CalculatePoints(s2, q2, m2)
  {
  }
}
