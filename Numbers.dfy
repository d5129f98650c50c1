/** Swift's numeric conversions and remainders, which round toward zero where Dafny's
    `/`, `%` and `.Floor` round down. */
module SwiftNumbers {
  /** `Int(x)` for a `Double`: drops the fractional part, rounding toward zero. */
  function Trunc(x: real): (r: int)
    ensures x >= 0.0 ==> r >= 0 && r as real <= x < r as real + 1.0
    ensures x < 0.0 ==> r <= 0 && r as real - 1.0 < x <= r as real
  {
    if x >= 0.0 then x.Floor else -((-x).Floor)
  }

  /** Swift's integer `/`: the quotient rounded toward zero. */
  function Quot(a: int, b: int): (q: int)
    requires b > 0
    ensures a >= 0 ==> 0 <= a - b * q < b
    ensures a < 0 ==> -b < a - b * q <= 0
  {
    if a >= 0 then a / b else -((-a) / b)
  }

  /** Swift's integer `%`: the remainder takes the sign of the dividend. */
  function Rem(a: int, b: int): (r: int)
    requires b > 0
    ensures a >= 0 ==> 0 <= r < b
    ensures a < 0 ==> -b < r <= 0
  {
    a - b * Quot(a, b)
  }

  /** `x.truncatingRemainder(dividingBy: m)`: `x` minus the multiple of `m` whose
      quotient is `x / m` rounded toward zero. */
  function FMod(x: real, m: real): (r: real)
    requires m > 0.0
    ensures x >= 0.0 ==> 0.0 <= r < m
  {
    if x >= 0.0 then FModRange(x, m); x - m * Trunc(x / m) as real
    else x - m * Trunc(x / m) as real
  }

  lemma FModRange(x: real, m: real)
    requires m > 0.0 && x >= 0.0
    ensures 0.0 <= x - m * Trunc(x / m) as real < m
  {
    var q := x / m;
    assert m * q == x;
    if q < 0.0 {
      MulMono(m, q, 0.0);
    }
    var t := Trunc(q) as real;
    assert t <= q < t + 1.0;
    MulMono(m, t, q);
    MulMono(m, q, t + 1.0);
    assert m * q < m * (t + 1.0);
    assert m * (t + 1.0) == m * t + m;
    assert x - m * t < m;
  }

  lemma MulMono(m: real, a: real, b: real)
    requires m > 0.0 && a <= b
    ensures m * a <= m * b
    ensures a < b ==> m * a < m * b
  {
  }
}
