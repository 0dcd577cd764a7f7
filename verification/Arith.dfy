/** Products and quotients, one fact at a time, for the proofs about rates and durations. */
module Arith {
  lemma Distribute(a: int, x: int, y: int)
    ensures a * (x + y) == a * x + a * y
  {
  }

  lemma Monotone(a: int, x: int, y: int)
    requires a >= 0 && x <= y
    ensures a * x <= a * y
  {
  }

  lemma QuotientBounds(n: int, period: int)
    requires period > 0
    ensures period * (n / period) <= n < period * (n / period) + period
  {
  }

  lemma QuotientAtLeast(period: int, x: int, n: int)
    requires period > 0 && period * x <= n
    ensures x <= n / period
  {
    QuotientBounds(n, period);
    if x > n / period {
      Monotone(period, n / period + 1, x);
      assert false;
    }
  }

  lemma QuotientBelow(period: int, x: int, n: int)
    requires period > 0 && n < period * x
    ensures n / period < x
  {
    QuotientBounds(n, period);
    if x <= n / period {
      Monotone(period, x, n / period);
      assert false;
    }
  }

  /** `n * d`, as repeated addition. */
  function Mul(n: nat, d: int): int {
    if n == 0 then 0 else Mul(n - 1, d) + d
  }

  lemma MulIsProduct(n: nat, d: int)
    ensures Mul(n, d) == n * d
  {
  }

  /** Whole periods that fit into an elapsed time. */
  lemma PeriodsElapsed(n: nat, period: int, elapsed: int)
    requires period > 0 && Mul(n, period) <= elapsed
    ensures n <= elapsed / period
    ensures Mul(n, period) == elapsed ==> n == elapsed / period
  {
    MulIsProduct(n, period);
    QuotientAtLeast(period, n, elapsed);
    if Mul(n, period) == elapsed {
      Distribute(period, n, 1);
      QuotientBelow(period, n + 1, elapsed);
    }
  }
}
