/**
 * The progress bars' percentage: a part of a whole times one hundred, and zero when the
 * whole is zero instead of a division by zero.
 */
module Ratios {

  /** `whole > 0 ? (part / whole) * 100 : 0`. */
  function Percent(part: nat, whole: nat): (p: real)
    ensures p >= 0.0
    ensures whole == 0 ==> p == 0.0
  {
    if whole > 0 then (part as real / whole as real) * 100.0 else 0.0
  }

  /**
   * A part no larger than the whole fills at most the whole bar, and fills it exactly
   * when part and whole are equal.
   */
  lemma PercentAtMostHundred(part: nat, whole: nat)
    requires part <= whole
    ensures Percent(part, whole) <= 100.0
    ensures whole > 0 ==> (Percent(part, whole) == 100.0 <==> part == whole)
  {
    if whole > 0 {
      var q := part as real / whole as real;
      var w := whole as real;
      assert q * w == part as real;
      if q == 1.0 {
        assert part as real == w;
      }
      if part == whole {
        assert q == 1.0;
      }
    }
  }

  /** A larger part of the same positive whole never shows a shorter bar. */
  lemma PercentMonotone(a: nat, b: nat, whole: nat)
    requires a <= b
    ensures Percent(a, whole) <= Percent(b, whole)
  {
    if whole > 0 {
      var w := whole as real;
      var qa := a as real / w;
      var qb := b as real / w;
      assert (qb - qa) * w == b as real - a as real;
      assert qb - qa >= 0.0;
    }
  }
}
