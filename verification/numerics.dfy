/** Arithmetic shared by the thermal model: the fourth power of the
    Stefan-Boltzmann terms, Python's float remainder and floor division, and
    the trigonometric functions of numpy, which the model leaves uninterpreted. */
module Numerics {

  /** numpy's `cos`, `sin` and `radians`, taken as given functions.  No
      property of the model depends on their values, so every member that
      needs them receives them as a parameter. */
  datatype Trig = Trig(cos: real -> real, sin: real -> real, radians: real -> real)

  /** `x**4` in the source. */
  function Pow4(x: real): (r: real)
    ensures r >= 0.0
    ensures x == 0.0 ==> r == 0.0
  {
    var s := x * x;
    assert s >= 0.0;
    s * s
  }

  /** Python's `x // m` for a positive divisor: the largest integer not above x / m. */
  function FloorDiv(x: real, m: real): (k: int)
    requires m > 0.0
    ensures k as real * m <= x < (k + 1) as real * m
  {
    var k := (x / m).Floor;
    FloorScaled(x, m, k);
    k
  }

  /** Python's `x % m` for a positive divisor: the result is in [0, m) and
      differs from x by a whole multiple of m. */
  function FloatMod(x: real, m: real): (r: real)
    requires m > 0.0
    ensures 0.0 <= r < m
    ensures (x - r) / m == FloorDiv(x, m) as real
    ensures 0.0 <= x < m ==> r == x
  {
    var k := FloorDiv(x, m);
    assert (k as real * m) / m == k as real;
    FloorInRange(x, m, k);
    x - k as real * m
  }

  lemma FloorScaled(x: real, m: real, k: int)
    requires m > 0.0 && k == (x / m).Floor
    ensures k as real * m <= x < (k + 1) as real * m
  {
    var q := x / m;
    assert q * m == x;
    assert k as real <= q < (k + 1) as real;
    assert k as real * m <= q * m;
    assert q * m < (k + 1) as real * m;
  }

  lemma FloorInRange(x: real, m: real, k: int)
    requires m > 0.0 && k as real * m <= x < (k + 1) as real * m
    ensures 0.0 <= x < m ==> k == 0
  {
    if 0.0 <= x < m {
      assert k as real * m < 1.0 * m && 0.0 * m < (k + 1) as real * m;
    }
  }

  /** Two integers that both bracket x by multiples of m are equal. */
  lemma FloorUnique(x: real, m: real, j: int, k: int)
    requires m > 0.0
    requires j as real * m <= x < (j + 1) as real * m
    requires k as real * m <= x < (k + 1) as real * m
    ensures j == k
  {
    MulMonotone((k + 1) as real, j as real, m);
    assert j <= k;
    MulMonotone((j + 1) as real, k as real, m);
    assert k <= j;
  }

  /** Adding one whole modulus does not change the remainder. */
  lemma FloatModShift(x: real, m: real)
    requires m > 0.0
    ensures FloatMod(x + m, m) == FloatMod(x, m)
  {
    var k := FloorDiv(x, m);
    var k' := FloorDiv(x + m, m);
    MulSucc(k, m);
    MulSucc(k + 1, m);
    FloorUnique(x + m, m, k', k + 1);
  }

  /** Scaling by a non-negative factor keeps the order. */
  lemma MulMonotone(x: real, y: real, m: real)
    requires m >= 0.0
    ensures x <= y ==> x * m <= y * m
  {
    assert y * m - x * m == (y - x) * m;
  }

  lemma MulSucc(k: int, m: real)
    ensures (k + 1) as real * m == k as real * m + m
  {
  }
}
