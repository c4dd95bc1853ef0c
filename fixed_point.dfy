/** Fixed-point arithmetic with an explicit rounding direction.

    The contracts use the `fixed_mul_floor`, `fixed_mul_ceil`, `fixed_div_floor`
    and `fixed_div_ceil` operations of a fixed-point library on 128-bit
    integers: `x.fixed_mul_floor(y, d)` is `floor(x * y / d)` and
    `x.fixed_div_floor(y, d)` is `floor(x * d / y)`, and likewise with `ceil`.
    Each returns `None` when the product overflows or the divisor is zero, and
    the callers unwrap it, so either case aborts the transaction.

    Here integers are unbounded, so only the zero divisor is a failure.  The
    divisors of every call in the modelled code (scalars, exchange rates,
    supplies, factors and share counts) are never negative, so they are `nat`;
    the library's rounding for negative divisors is not modelled. */
module FixedPoint {
  import opened Outcomes

  /** 7-decimal fixed point: ratios, shares and utilization. */
  const SCALAR_7: nat := 10_000_000
  /** 9-decimal fixed point: exchange rates. */
  const SCALAR_9: nat := 1_000_000_000

  /** The largest q with q * m <= n (Dafny's division agrees with floor for a
      positive divisor). */
  function FloorDiv(n: int, m: int): (q: int)
    requires m > 0
    ensures q * m <= n < q * m + m
    ensures n >= 0 ==> q >= 0
  {
    n / m
  }

  /** The smallest q with n <= q * m. */
  function CeilDiv(n: int, m: int): (q: int)
    requires m > 0
    ensures q * m - m < n <= q * m
    ensures n >= 0 ==> q >= 0
  {
    -((-n) / m)
  }

  /** `x.fixed_mul_floor(y, d)` */
  function MulFloor(x: int, y: int, d: nat): (r: int)
    requires d > 0
    ensures r * d <= x * y < r * d + d
    ensures x >= 0 && y >= 0 ==> r >= 0
  {
    FloorDiv(x * y, d)
  }

  /** `x.fixed_mul_ceil(y, d)` */
  function MulCeil(x: int, y: int, d: nat): (r: int)
    requires d > 0
    ensures r * d - d < x * y <= r * d
    ensures x >= 0 && y >= 0 ==> r >= 0
  {
    CeilDiv(x * y, d)
  }

  /** `x.fixed_div_floor(y, d)`: `None` exactly when the divisor `y` is zero. */
  function DivFloor(x: int, y: nat, d: nat): (r: Option<int>)
    ensures r.None? <==> y == 0
    ensures r.Some? ==> r.value * y <= x * d < r.value * y + y
    ensures r.Some? && x >= 0 ==> r.value >= 0
  {
    if y == 0 then None else Some(FloorDiv(x * d, y))
  }

  /** `x.fixed_div_ceil(y, d)`: `None` exactly when the divisor `y` is zero. */
  function DivCeil(x: int, y: nat, d: nat): (r: Option<int>)
    ensures r.None? <==> y == 0
    ensures r.Some? ==> r.value * y - y < x * d <= r.value * y
    ensures r.Some? && x >= 0 ==> r.value >= 0
  {
    if y == 0 then None else Some(CeilDiv(x * d, y))
  }

  /** `a * m < b * m` with a positive `m` forces `a < b`. */
  lemma ScaledLess(a: int, b: int, m: int)
    requires m > 0
    requires a * m < b * m
    ensures a < b
  {
    assert (b - a) * m == b * m - a * m;
  }

  /** Rounding up and rounding down the same quotient differ by at most one,
      and agree exactly when the division is exact. */
  lemma CeilFloorGap(n: int, m: int)
    requires m > 0
    ensures 0 <= CeilDiv(n, m) - FloorDiv(n, m) <= 1
    ensures CeilDiv(n, m) == FloorDiv(n, m) <==> n % m == 0
  {
    var lo, hi := FloorDiv(n, m), CeilDiv(n, m);
    ScaledLess(lo - 1, hi, m);
    ScaledLess(hi - 1, lo + 1, m);
    assert n == m * (n / m) + n % m;
  }

  /** A quotient rounded down is at most `k` as soon as `n < (k + 1) * m`. */
  lemma FloorDivAtMost(n: int, m: int, k: int)
    requires m > 0
    requires n < (k + 1) * m
    ensures FloorDiv(n, m) <= k
  {
    ScaledLess(FloorDiv(n, m), k + 1, m);
  }

  /** A quotient rounded up is at least `k` as soon as `n > (k - 1) * m`. */
  lemma CeilDivAtLeast(n: int, m: int, k: int)
    requires m > 0
    requires n > (k - 1) * m
    ensures CeilDiv(n, m) >= k
  {
    ScaledLess(k - 1, CeilDiv(n, m), m);
  }

  /** A quotient rounded down is at least `k` as soon as `k * m <= n`. */
  lemma FloorDivAtLeast(n: int, m: int, k: int)
    requires m > 0
    requires k * m <= n
    ensures FloorDiv(n, m) >= k
  {
    ScaledLess(k, FloorDiv(n, m) + 1, m);
  }

  /** A quotient rounded up exceeds `k` exactly when `n` exceeds `k * m`. */
  lemma CeilDivExceeds(n: int, m: int, k: int)
    requires m > 0
    ensures CeilDiv(n, m) > k <==> n > k * m
  {
    if n > k * m {
      CeilDivAtLeast(n, m, k + 1);
    } else {
      ScaledLess(CeilDiv(n, m) - 1, k, m);
    }
  }

  /** Rounding a product up is monotone in the second factor. */
  lemma MulCeilMonotone(x: int, y1: int, y2: int, d: nat)
    requires d > 0 && x >= 0 && y1 <= y2
    ensures MulCeil(x, y1, d) <= MulCeil(x, y2, d)
  {
    var lo, hi := MulCeil(x, y1, d), MulCeil(x, y2, d);
    assert x * y2 - x * y1 == x * (y2 - y1);
    assert (lo - 1) * d == lo * d - d;
    ScaledLess(lo - 1, hi, d);
  }

  /** Scaling `y` up by a factor `x` of at least one (`x >= d` at scale
      `d`), rounded up, never yields less than `y`. */
  lemma MulCeilAtLeast(x: int, y: nat, d: nat)
    requires d > 0 && x >= d
    ensures MulCeil(x, y, d) >= y
  {
    var r := MulCeil(x, y, d);
    assert x * y - d * y == (x - d) * y;
    ScaledLess(y - 1, r, d);
  }
}
