/**
 * Numeric vocabulary shared by the tool-path model: the constants of <cmath>
 * and <limits> that the geometry uses, std::min / std::max, and the
 * transcendental functions of the C library, which the model does not
 * interpret and receives as parameters.
 */
module Numerics {

  /** M_PI, written as the decimal that the double constant prints as. */
  const Pi: real := 3.141592653589793

  /** M_PI_2. */
  const HalfPi: real := Pi / 2.0

  /** std::numeric_limits<double>::max(), the largest finite double. */
  const DblMax: real := 1.7976931348623157e308

  /**
   * std::numeric_limits<double>::min(): the smallest POSITIVE normal double,
   * not the most negative one.
   */
  const DblMin: real := 2.2250738585072014e-308

  /** std::min(a, b), which returns a unless b < a. */
  function Min(a: real, b: real): real
  {
    if b < a then b else a
  }

  /** std::max(a, b), which returns a unless a < b. */
  function Max(a: real, b: real): real
  {
    if a < b then b else a
  }

  /**
   * The C library functions the geometry calls. They are left uninterpreted:
   * every operation that needs one receives it through this record, and every
   * property proved below holds whatever functions are supplied, unless a
   * lemma names the values it relies on as hypotheses.
   */
  datatype MathLib = MathLib(
    sqrt: real -> real,
    acos: real -> real,
    exp: real -> real,
    atan2: (real, real) -> real,
    cos: real -> real,
    sin: real -> real)
}
