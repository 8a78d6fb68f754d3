/**
 * Two-decimal rounding of amounts, `round(x, 2)`. Amounts are exact reals;
 * a value exactly halfway between two cents goes to the even cent, as
 * Python's `round` does.
 */
module Rounding {

  /** `x` is a whole number of cents. */
  predicate IsCents(x: real)
  {
    (x * 100.0).Floor as real == x * 100.0
  }

  /** `x` rounded to the nearest cent, ties to the even cent. */
  function Round2(x: real): (r: real)
    ensures IsCents(r)
    ensures -0.005 <= r - x <= 0.005
    ensures IsCents(x) ==> r == x
    ensures x * 100.0 - (x * 100.0).Floor as real == 0.5 ==> (r * 100.0).Floor % 2 == 0
  {
    var scaled := x * 100.0;
    var below := scaled.Floor;
    var frac := scaled - below as real;
    var cents := if frac < 0.5 then below
                 else if frac > 0.5 then below + 1
                 else if below % 2 == 0 then below
                 else below + 1;
    assert (cents as real / 100.0) * 100.0 == cents as real;
    cents as real / 100.0
  }

  /** Sums and differences of whole cents are whole cents. */
  lemma CentsClosed(a: real, b: real)
    requires IsCents(a) && IsCents(b)
    ensures IsCents(a + b) && IsCents(a - b)
  {
    var ca, cb := (a * 100.0).Floor, (b * 100.0).Floor;
    assert a * 100.0 == ca as real && b * 100.0 == cb as real;
    var sum, diff := (a + b) * 100.0, (a - b) * 100.0;
    assert sum == a * 100.0 + b * 100.0 && diff == a * 100.0 - b * 100.0;
    assert sum == (ca + cb) as real && diff == (ca - cb) as real;
    assert sum.Floor == ca + cb && diff.Floor == ca - cb;
  }
}
