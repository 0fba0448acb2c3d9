/** MathUtils of pokeher/utility.py (true division, so results are reals). */
module Utility {

  /** MathUtils.percentage: num as a percentage of denom, 0 when denom is 0. */
  function Percentage(num: real, denom: real): (r: real)
    ensures denom == 0.0 ==> r == 0.0
    ensures denom != 0.0 ==> r * denom == 100.0 * num
  {
    if denom == 0.0 then 0.0 else (num / denom) * 100.0
  }

  /** A zero numerator gives 0 whatever the denominator. */
  lemma PercentageOfZero(denom: real)
    ensures Percentage(0.0, denom) == 0.0
  {
  }

  /** For a fixed positive denominator the percentage grows with the numerator. */
  lemma PercentageMonotone(a: real, b: real, denom: real)
    requires denom > 0.0 && a <= b
    ensures Percentage(a, denom) <= Percentage(b, denom)
  {
    assert Percentage(a, denom) * denom == 100.0 * a;
    assert Percentage(b, denom) * denom == 100.0 * b;
  }

  /** With a positive denominator, "at most p percent" is a comparison without division. */
  lemma PercentageAtMost(num: real, denom: real, p: real)
    requires denom > 0.0
    ensures Percentage(num, denom) <= p <==> 100.0 * num <= p * denom
  {
    var r := Percentage(num, denom);
    assert r * denom == 100.0 * num;
    if r <= p {
      assert r * denom <= p * denom;
    } else {
      assert r * denom > p * denom;
    }
  }

  /** The values the utility tests expect: 5 of 10, 20 of 200, 0 of 300, 300 of 0. */
  lemma PercentageExamples()
    ensures Percentage(5.0, 10.0) == 50.0
    ensures Percentage(20.0, 200.0) == 10.0
    ensures Percentage(0.0, 300.0) == 0.0
    ensures Percentage(300.0, 0.0) == 0.0
  {
  }
}
