/**
 * The service's one-decimal rounding, `Math.round(x * 10.0) / 10.0`, done
 * exactly on integers: a result is an integer number of tenths, and
 * Math.round rounds half-up (it is floor(x + 1/2)).
 */
module Rounding {

  /**
   * total / n rounded half-up to one decimal, in tenths: (20 * total + n) / (2 * n).
   * The ensures says `tenths / 10` is within half a tenth of `total / n`,
   * a tie going up; exactly one integer satisfies it.
   */
  function RoundTenths(total: int, n: int): (tenths: int)
    requires n > 0
    ensures -n < 2 * n * tenths - 20 * total <= n
  {
    (20 * total + n) / (2 * n)
  }

  /**
   * 100 * count / n rounded half-up to one decimal, in tenths of a percent:
   * (2000 * count + n) / (2 * n).
   */
  function PercentTenths(count: int, n: int): (tenths: int)
    requires n > 0
    ensures -n < 2 * n * tenths - 2000 * count <= n
  {
    (2000 * count + n) / (2 * n)
  }

  /** From 2n*a < 2n*(b + 1) with n > 0 follows a <= b. */
  lemma CancelScale(n: int, a: int, b: int)
    requires n > 0 && 2 * n * a < 2 * n * (b + 1)
    ensures a <= b
  {
  }

  /** A mean that lies between lo and hi rounds to a value between them. */
  lemma RoundTenthsBetween(total: int, n: int, lo: int, hi: int)
    requires n > 0 && lo * n <= total <= hi * n
    ensures 10 * lo <= RoundTenths(total, n) <= 10 * hi
  {
    var r := RoundTenths(total, n);
    assert 2 * n * r <= 20 * total + n;
    assert 20 * total <= 2 * n * (10 * hi) by {
      assert 20 * total <= 20 * (hi * n);
    }
    CancelScale(n, r, 10 * hi);
    assert 2 * n * (10 * lo) <= 20 * total by {
      assert 20 * (lo * n) <= 20 * total;
    }
    CancelScale(n, 10 * lo - 1, r);
  }

  /** A percentage of part of a whole lies in [0.0, 100.0]; none is 0.0, all is 100.0. */
  lemma PercentTenthsBounds(count: int, n: int)
    requires n > 0 && 0 <= count <= n
    ensures 0 <= PercentTenths(count, n) <= 1000
    ensures count == 0 ==> PercentTenths(count, n) == 0
    ensures count == n ==> PercentTenths(count, n) == 1000
  {
    var r := PercentTenths(count, n);
    assert 2000 * count <= 2 * n * 1000;
    CancelScale(n, r, 1000);
    CancelScale(n, -1, r);
    if count == 0 {
      CancelScale(n, r, 0);
    }
    if count == n {
      assert 2 * n * 1000 == 2000 * count;
      CancelScale(n, 1000, r);
    }
  }
}
