/**
 * `dsih_dsc.h`: the integer `ceil` and `floor` macros the Display Stream
 * Compression set-up uses, written over C's truncating `/` and `%`, and the
 * `RANGE_CHECK` macro, which only logs.
 */
module DscMath {

  /** C's `n / d`: the quotient truncated toward zero. */
  function CDiv(n: int, d: int): int
    requires d > 0
  {
    if n >= 0 then n / d else -((-n) / d)
  }

  /** C's `n % d`: the remainder that goes with `CDiv`, with the sign of `n`. */
  function CMod(n: int, d: int): int
    requires d > 0
  {
    n - d * CDiv(n, d)
  }

  /** `ceil(n, d)` as the macro computes it. */
  function Ceil(n: int, d: int): (r: int)
    requires d > 0
  {
    if n < 0 then -CDiv(-n, d) else CDiv(n, d) + (if CMod(n, d) != 0 then 1 else 0)
  }

  /** `floor(n, d)` as the macro computes it. */
  function Floor(n: int, d: int): (r: int)
    requires d > 0
  {
    if n < 0 then -CDiv(-n, d) - (if CMod(n, d) != 0 then 1 else 0) else CDiv(n, d)
  }

  /** For a positive divisor `ceil` is the least multiple count that reaches `n`. */
  lemma CeilIsCeiling(n: int, d: int)
    requires d > 0
    ensures d * (Ceil(n, d) - 1) < n <= d * Ceil(n, d)
  {
    if n < 0 {
      var q := (-n) / d;
      assert -n == d * q + (-n) % d;
      assert Ceil(n, d) == -q;
    } else {
      var q := n / d;
      assert n == d * q + n % d;
      if n % d == 0 {
        assert Ceil(n, d) == q;
      } else {
        assert Ceil(n, d) == q + 1;
      }
    }
  }

  /** For a positive divisor `floor` is the greatest multiple count that stays within `n`. */
  lemma FloorIsFloor(n: int, d: int)
    requires d > 0
    ensures d * Floor(n, d) <= n < d * (Floor(n, d) + 1)
  {
    if n < 0 {
      var q := (-n) / d;
      assert -n == d * q + (-n) % d;
      assert CMod(n, d) == -((-n) % d);
      if (-n) % d == 0 {
        assert Floor(n, d) == -q;
      } else {
        assert Floor(n, d) == -q - 1;
      }
    } else {
      var q := n / d;
      assert n == d * q + n % d;
    }
  }

  /**
   * The two macros agree exactly when `d` divides `n`, and differ by one
   * otherwise.
   */
  lemma CeilFloorGap(n: int, d: int)
    requires d > 0
    ensures d * Floor(n, d) == n ==> Ceil(n, d) == Floor(n, d)
    ensures d * Floor(n, d) != n ==> Ceil(n, d) == Floor(n, d) + 1
  {
    CeilIsCeiling(n, d);
    FloorIsFloor(n, d);
    var c, f := Ceil(n, d), Floor(n, d);
    // d*(c-1) < n <= d*c and d*f <= n < d*(f+1).
    assert d * (c - 1) < d * (f + 1);
    LessTimes(d, c - 1, f + 1);
    assert d * f <= d * c;
    LessEqTimes(d, f, c);
    if d * f == n {
      LessTimes(d, c - 1, f);
    } else {
      LessTimes(d, f, c);
    }
  }

  /** Multiplying by a positive `d` keeps `<`. */
  lemma LessTimes(d: int, x: int, y: int)
    requires d > 0 && d * x < d * y
    ensures x < y
  {
    if x >= y {
      MonoTimes(d, y, x);
    }
  }

  /** Multiplying by a positive `d` keeps `<=`. */
  lemma LessEqTimes(d: int, x: int, y: int)
    requires d > 0 && d * x <= d * y
    ensures x <= y
  {
    if x > y {
      MonoTimes(d, y + 1, x);
    }
  }

  lemma MonoTimes(d: int, x: int, y: int)
    requires d > 0 && x <= y
    ensures d * x <= d * y
  {
    assert d * y == d * x + d * (y - x);
  }

  /** The outcome of `RANGE_CHECK`: which message is logged. */
  datatype RangeReport = OutOfRange | InRange

  /** `RANGE_CHECK(s, a, b, c)`: an error for `a` outside `[b, c]`, a debug line otherwise. */
  function RangeCheck(a: int, b: int, c: int): (r: RangeReport)
    ensures r == InRange <==> b <= a <= c
  {
    if a < b || a > c then OutOfRange else InRange
  }
}
