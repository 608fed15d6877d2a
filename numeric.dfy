/** Facts about real and integer arithmetic that the solver does not find on its own
    because they multiply or divide by a variable. */
module Numeric {
  lemma MulLe(a: real, b: real, c: real)
    requires a <= b && 0.0 < c
    ensures a * c <= b * c
  {
  }

  lemma MulLt(a: real, b: real, c: real)
    requires a < b && 0.0 < c
    ensures a * c < b * c
  {
  }

  /** x / c, scaled back by c, is x again. */
  lemma DivScale(x: real, c: real)
    requires 0.0 <= x && 0.0 < c
    ensures 0.0 <= x / c && (x / c) * c == x
  {
  }

  lemma CastMul(a: int, b: int)
    ensures (a * b) as real == (a as real) * (b as real)
  {
  }

  lemma MulIntLe(a: nat, b: nat, c: nat)
    requires a <= b
    ensures a * c <= b * c
  {
  }

  lemma DivLe(a: real, b: real, c: real)
    requires a <= b && 0.0 < c
    ensures a / c <= b / c
  {
  }

  lemma MulLeNonNeg(a: real, b: real, c: real)
    requires a <= b && 0.0 <= c
    ensures a * c <= b * c
  {
  }

  /** x - t * m, where t is x / m rounded down, lies in [0, m). */
  lemma RemainderAbove(x: real, m: real, t: real)
    requires 0.0 < m && 0.0 <= x && t <= x / m < t + 1.0
    ensures 0.0 <= x - t * m < m
  {
    var q := x / m;
    assert q * m == x;
    MulLt(q, t + 1.0, m);
    assert q * m < (t + 1.0) * m;
    assert (t + 1.0) * m == t * m + m;
    assert x < t * m + m;
    MulLe(t, q, m);
  }

  /** x - t * m, where t is x / m rounded up, lies in (-m, 0]. */
  lemma RemainderBelow(x: real, m: real, t: real)
    requires 0.0 < m && x < 0.0 && t - 1.0 < x / m <= t
    ensures -m < x - t * m <= 0.0
  {
    var q := x / m;
    assert q * m == x;
    MulLt(t - 1.0, q, m);
    assert (t - 1.0) * m < q * m;
    assert (t - 1.0) * m == t * m - m;
    assert t * m - m < x;
    MulLe(q, t, m);
  }
}
