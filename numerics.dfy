/**
 * The C++ and JUCE numeric primitives the flanger relies on, stated over
 * Dafny's unbounded `int` and exact `real`:
 *  - `static_cast<int>` on a floating-point value (truncation toward zero),
 *  - the built-in `%` on `int` (truncating remainder, sign of the dividend),
 *  - JUCE `roundToInt` (round to nearest, ties to even),
 *  - `jmin` on ints,
 *  - the two transcendental library calls (`sin`, `sqrt`), which have no
 *    definition here and are passed in as a `Libm` record.
 */
module Numerics {

  /** `static_cast<int>(x)`: drops the fractional part, rounding toward zero. */
  function Trunc(x: real): (i: int)
    ensures 0.0 <= x ==> i as real <= x < i as real + 1.0
    ensures x < 0.0 ==> i as real - 1.0 < x <= i as real
  {
    if 0.0 <= x then x.Floor else -((-x).Floor)
  }

  /** C++ `a % m` for `m > 0`: the remainder takes the sign of the dividend. */
  function CppRem(a: int, m: int): (r: int)
    requires 0 < m
    ensures 0 <= a ==> 0 <= r < m
    ensures 0 <= a ==> r == a % m
    ensures a < 0 ==> -m < r <= 0
  {
    if 0 <= a then a % m else -((-a) % m)
  }

  /** JUCE `roundToInt`: nearest integer, halfway cases to the even neighbour. */
  function RoundToInt(x: real): (n: int)
    ensures -0.5 <= n as real - x <= 0.5
    ensures (n as real - x == 0.5 || x - n as real == 0.5) ==> n % 2 == 0
  {
    var f := (x + 0.5).Floor;
    if f as real == x + 0.5 && f % 2 != 0 then f - 1 else f
  }

  /** JUCE `jmin` on ints. */
  function MinInt(a: int, b: int): (m: int)
    ensures m <= a && m <= b
    ensures m == a || m == b
  {
    if a <= b then a else b
  }

  /** `FloatVectorOperations::min` applied to one element. */
  function MinReal(a: real, b: real): (m: real)
    ensures m <= a && m <= b
    ensures m == a || m == b
  {
    if a <= b then a else b
  }

  /**
   * A product kept behind a name, so that the solver does not treat every
   * sample-times-gain term in a quantified buffer property as nonlinear arithmetic.
   */
  function Scaled(x: real, gain: real): real
  {
    x * gain
  }

  function Abs(x: real): (r: real)
    ensures 0.0 <= r
    ensures r == x || r == -x
  {
    if x < 0.0 then -x else x
  }

  /** The C math library functions the plugin calls. */
  datatype Libm = Libm(sin: real -> real, sqrt: real -> real)

  /**
   * What the model assumes of the library: `sin` is bounded, `sqrt` is the
   * non-negative square root, and (as in IEEE 754) `sqrt` of zero is exactly zero.
   */
  ghost predicate Sound(lib: Libm)
  {
    && (forall x :: -1.0 <= lib.sin(x) <= 1.0)
    && (forall x :: 0.0 <= x ==> 0.0 <= lib.sqrt(x) && lib.sqrt(x) * lib.sqrt(x) == x)
    && lib.sqrt(0.0) == 0.0
  }

  /** A whole-number real truncates to itself. */
  lemma TruncOfInt(n: int)
    ensures Trunc(n as real) == n
  {
  }

  /** The fractional part left by truncation lies strictly between -1 and 1. */
  lemma TruncRemainder(x: real)
    ensures -1.0 < x - Trunc(x) as real < 1.0
    ensures 0.0 <= x ==> 0.0 <= x - Trunc(x) as real
    ensures x < 0.0 ==> x - Trunc(x) as real <= 0.0
  {
  }

  /** The square root law pins `sqrt(1)` to 1. */
  lemma SqrtOne(lib: Libm)
    requires Sound(lib)
    ensures lib.sqrt(1.0) == 1.0
  {
    var o := lib.sqrt(1.0);
    assert 0.0 <= o && o * o == 1.0;
    if o < 1.0 {
      MulMonotone(o, o, 1.0);
    } else if 1.0 < o {
      MulMonotone(1.0, o, o);
    }
  }

  lemma MulPositive(a: real, b: real)
    requires 0.0 < a && 0.0 < b
    ensures 0.0 < Scaled(a, b)
  {
    MulMonotone(0.0, b, a);
    assert a * b != 0.0;
  }

  lemma MulMonotone(a: real, b: real, c: real)
    requires a <= c && 0.0 <= b
    ensures a * b <= c * b
  {
  }
}
