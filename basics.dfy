/** Helpers shared by every module of the model. */
module Basics {

  function Max(a: int, b: int): int { if a >= b then a else b }

  function Min(a: int, b: int): int { if a <= b then a else b }

  /** Python's `int(n / d)` for a positive divisor: the exact quotient truncated toward zero.
      The game writes `int(x * 1.5)`, `int(x * 0.2)` and so on; each becomes `Trunc(k * x, d)`
      with `k / d` the constant as an exact fraction. */
  function Trunc(n: int, d: int): int
    requires d > 0
  {
    if n >= 0 then n / d else -((-n) / d)
  }

  /** The division identity for a natural number and a positive divisor. */
  lemma DivMod(n: int, d: int)
    requires n >= 0 && d > 0
    ensures n == d * (n / d) + n % d && 0 <= n % d < d && 0 <= n / d
  {
  }

  /** `Trunc` rounds toward zero: the result times `d` lies within one `d` of `n`, on the
      side of zero, and negating `n` negates the result. */
  lemma TruncTowardZero(n: int, d: int)
    requires d > 0
    ensures n >= 0 ==> 0 <= Trunc(n, d) && d * Trunc(n, d) <= n < d * Trunc(n, d) + d
    ensures n < 0 ==> Trunc(n, d) <= 0 && d * Trunc(n, d) - d < n <= d * Trunc(n, d)
    ensures Trunc(-n, d) == -Trunc(n, d)
  {
    var a := if n >= 0 then n else -n;
    DivMod(a, d);
    var q, m := a / d, a % d;
    var p := d * q;
    assert a == p + m;
    if n >= 0 {
      assert Trunc(n, d) == q && Trunc(-n, d) == -q;
      assert d * Trunc(n, d) == p;
    } else {
      assert Trunc(n, d) == -q && Trunc(-n, d) == q;
      assert d * Trunc(n, d) == -p;
    }
  }

  /** A closed range `randint(lo, hi)` draws from. */
  datatype Band = Band(lo: int, hi: int) {
    predicate Has(x: int) { lo <= x <= hi }
  }

  /** A value of Python's `random.random()`. */
  predicate Unit(u: real) { 0.0 <= u < 1.0 }

  datatype Option<T> = None | Some(value: T)
}
