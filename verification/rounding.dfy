/**
  `Math.round(n / 100)` on integers. JavaScript rounds half-way cases up
  (towards +infinity): `Math.round(x) == floor(x + 1/2)`. For `x = n / 100`
  that is `floor((n + 50) / 100)`, and Dafny's `/` on a positive divisor is
  floor division, also for negative `n`.
 */
module Rounding {

  /** The integer nearest to `n / 100`, half-way cases going up. */
  function RoundHundredths(n: int): (r: int)
    ensures 100 * r - 50 <= n < 100 * r + 50
  {
    (n + 50) / 100
  }

  /** There is only one integer within half a unit of `n / 100` (half-open on the upper side). */
  lemma RoundHundredthsUnique(n: int, k: int)
    requires 100 * k - 50 <= n < 100 * k + 50
    ensures RoundHundredths(n) == k
  {
    var r := RoundHundredths(n);
    assert 100 * r - 50 <= n < 100 * r + 50;
    assert 100 * (r - k) < 100 && 100 * (k - r) < 100;
  }

  /** Rounding never reverses the order of two amounts. */
  lemma RoundHundredthsMonotone(m: int, n: int)
    requires m <= n
    ensures RoundHundredths(m) <= RoundHundredths(n)
  {
    var a, b := RoundHundredths(m), RoundHundredths(n);
    assert 100 * a - 50 <= m <= n < 100 * b + 50;
  }

  /** `Math.round((amount * percent) / 100)`: `percent` per cent of `amount`, rounded once. */
  function PercentOf(amount: int, percent: int): (r: int)
    ensures 100 * r - 50 <= amount * percent < 100 * r + 50
  {
    RoundHundredths(amount * percent)
  }

  /** A percentage between 0 and 100 of a non-negative amount lies between 0 and the amount. */
  lemma PercentOfBounds(amount: int, percent: int)
    requires amount >= 0 && 0 <= percent <= 100
    ensures 0 <= PercentOf(amount, percent) <= amount
  {
    var p := amount * percent;
    assert 0 <= p <= amount * 100 by {
      assert amount * percent <= amount * 100 by {
        assert amount * (100 - percent) >= 0;
      }
    }
    var r := PercentOf(amount, percent);
    assert 100 * r - 50 <= p < 100 * r + 50;
  }

  /** A larger amount never yields a smaller share at a fixed non-negative percentage. */
  lemma PercentOfMonotone(a: int, b: int, percent: int)
    requires a <= b && percent >= 0
    ensures PercentOf(a, percent) <= PercentOf(b, percent)
  {
    assert a * percent <= b * percent by {
      assert (b - a) * percent >= 0;
    }
    RoundHundredthsMonotone(a * percent, b * percent);
  }
}
