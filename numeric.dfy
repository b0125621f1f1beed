/** JavaScript's `Math.round`, `Math.min` and `Math.max` over exact numbers. */
module Numeric {

  /** `Math.round`: the nearest integer, with halves rounded towards +infinity. */
  function Round(x: real): (n: int)
    ensures n as real <= x + 0.5 < n as real + 1.0
  {
    (x + 0.5).Floor
  }

  function Min(a: int, b: int): (m: int)
    ensures m <= a && m <= b && (m == a || m == b)
  {
    if a <= b then a else b
  }

  function Max(a: int, b: int): (m: int)
    ensures a <= m && b <= m && (m == a || m == b)
  {
    if a <= b then b else a
  }

  /** Rounding is monotone. */
  lemma RoundMonotone(x: real, y: real)
    requires x <= y
    ensures Round(x) <= Round(y)
  {
  }

  /** Rounding a quarter of an integer sum is integer division with an offset of 2. */
  lemma RoundQuarter(s: int)
    ensures Round(s as real / 4.0) == (s + 2) / 4
  {
    var q := (s + 2) / 4;
    assert 4 * q <= s + 2 < 4 * q + 4;
    assert q as real <= s as real / 4.0 + 0.5 < q as real + 1.0;
  }

  /** Rounding a half of an integer sum is integer division with an offset of 1. */
  lemma RoundHalf(s: int)
    ensures Round(s as real / 2.0) == (s + 1) / 2
  {
    var q := (s + 1) / 2;
    assert 2 * q <= s + 1 < 2 * q + 2;
    assert q as real <= s as real / 2.0 + 0.5 < q as real + 1.0;
  }
}
