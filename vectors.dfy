/**
 * The value type Vector2 of source/Vector2.h and its inline helpers, over
 * exact reals.
 */
module Vectors {

  datatype Vector2 = Vector2(x: real, y: real)

  /** The origin, the `zero` constant inside Normalized. */
  const Zero: Vector2 := Vector2(0.0, 0.0)

  /** operator-: the vector that, added to v1, gives v0. */
  function Sub(v0: Vector2, v1: Vector2): (r: Vector2)
    ensures v1.x + r.x == v0.x && v1.y + r.y == v0.y
  {
    Vector2(v0.x - v1.x, v0.y - v1.y)
  }

  /** operator+: subtracting either operand from the sum gives back the other. */
  function Add(v0: Vector2, v1: Vector2): (r: Vector2)
    ensures Sub(r, v1) == v0 && Sub(r, v0) == v1
  {
    Vector2(v0.x + v1.x, v0.y + v1.y)
  }

  /** operator*, component by component: a component is zero exactly when one of its factors is. */
  function Mul(v0: Vector2, v1: Vector2): (r: Vector2)
    ensures r.x == 0.0 <==> v0.x == 0.0 || v1.x == 0.0
    ensures r.y == 0.0 <==> v0.y == 0.0 || v1.y == 0.0
  {
    Vector2(v0.x * v1.x, v0.y * v1.y)
  }

  /**
   * operator/, component by component; exact division needs non-zero
   * divisors. The origin divided by anything is the origin, and a vector
   * divided by itself is {1, 1}; DivMulInverse states the inverse.
   */
  function Div(v0: Vector2, v1: Vector2): (r: Vector2)
    requires v1.x != 0.0 && v1.y != 0.0
    ensures v0 == Zero ==> r == Zero
    ensures v0 == v1 ==> r == Vector2(1.0, 1.0)
  {
    Vector2(v0.x / v1.x, v0.y / v1.y)
  }

  /**
   * Division of both components by one scalar, as the arc code applies `/` to a
   * vector and a radius.
   */
  function DivScalar(v: Vector2, s: real): (r: Vector2)
    requires s != 0.0
    ensures r == Div(v, Vector2(s, s))
  {
    Vector2(v.x / s, v.y / s)
  }

  /** The dot product, zero when either side is the origin; DotSymmetric and DotSelf state the rest. */
  function Dot(v0: Vector2, v1: Vector2): (r: real)
    ensures v0 == Zero || v1 == Zero ==> r == 0.0
  {
    (v0.x * v1.x) + (v0.y * v1.y)
  }

  /**
   * Distance(v0, v1) is the square root of the dot product of v1 - v0 with
   * itself: from a point to itself it is sqrt(0). DistanceSymmetric states
   * that it does not depend on the direction.
   */
  function Distance(sqrt: real -> real, v0: Vector2, v1: Vector2): (r: real)
    ensures v0 == v1 ==> r == sqrt(0.0)
  {
    var diff := Sub(v1, v0);
    sqrt(Dot(diff, diff))
  }

  /** Both components divided by the magnitude Distance(v, Zero), which must not be zero. */
  function Normalized(sqrt: real -> real, v: Vector2): (r: Vector2)
    requires Distance(sqrt, v, Zero) != 0.0
    ensures r.x * Distance(sqrt, v, Zero) == v.x
    ensures r.y * Distance(sqrt, v, Zero) == v.y
  {
    var mag := Distance(sqrt, v, Zero);
    Vector2(v.x / mag, v.y / mag)
  }

  /** The operators act on x and y independently: each result component depends only on that component. */
  lemma ComponentWise(a: Vector2, b: Vector2, c: Vector2, d: Vector2)
    ensures a.x == c.x && b.x == d.x ==>
      Sub(a, b).x == Sub(c, d).x && Add(a, b).x == Add(c, d).x && Mul(a, b).x == Mul(c, d).x
    ensures a.y == c.y && b.y == d.y ==>
      Sub(a, b).y == Sub(c, d).y && Add(a, b).y == Add(c, d).y && Mul(a, b).y == Mul(c, d).y
    ensures a.x == c.x && b.x == d.x && b.x != 0.0 && b.y != 0.0 && d.y != 0.0 ==> Div(a, b).x == Div(c, d).x
    ensures a.y == c.y && b.y == d.y && b.x != 0.0 && b.y != 0.0 && d.x != 0.0 ==> Div(a, b).y == Div(c, d).y
  {
  }

  /** Subtracting and then adding the same vector gives back the original, and conversely. */
  lemma SubAddInverse(v0: Vector2, v1: Vector2)
    ensures Add(Sub(v0, v1), v1) == v0
    ensures Sub(Add(v0, v1), v1) == v0
  {
  }

  /** Dividing and then multiplying by the same vector of non-zero components gives back the original. */
  lemma DivMulInverse(v0: Vector2, v1: Vector2)
    requires v1.x != 0.0 && v1.y != 0.0
    ensures Mul(Div(v0, v1), v1) == v0
  {
  }

  lemma DotSymmetric(v0: Vector2, v1: Vector2)
    ensures Dot(v0, v1) == Dot(v1, v0)
  {
  }

  /** The squared length is never negative, and is zero at the origin. */
  lemma DotSelf(v: Vector2)
    ensures Dot(v, v) >= 0.0
    ensures Dot(Zero, Zero) == 0.0
  {
    SquareNonNegative(v.x);
    SquareNonNegative(v.y);
  }

  /** A square is never negative. */
  lemma SquareNonNegative(a: real)
    ensures a * a >= 0.0
  {
    if a < 0.0 {
      assert a * a == (-a) * (-a);
    }
  }

  /**
   * The quantity under the square root is the same in both directions and is
   * zero for a point and itself, so Distance is symmetric whatever sqrt is.
   */
  lemma DistanceSymmetric(sqrt: real -> real, v0: Vector2, v1: Vector2)
    ensures Dot(Sub(v1, v0), Sub(v1, v0)) == Dot(Sub(v0, v1), Sub(v0, v1))
    ensures Distance(sqrt, v0, v1) == Distance(sqrt, v1, v0)
    ensures v0 == v1 ==> Dot(Sub(v1, v0), Sub(v1, v0)) == 0.0
  {
    var d, e := Sub(v1, v0), Sub(v0, v1);
    assert e.x == -d.x && e.y == -d.y;
    assert e.x * e.x == d.x * d.x;
    assert e.y * e.y == d.y * d.y;
  }

  /** When sqrt returns the true positive root of the squared length, Normalized has unit length. */
  lemma NormalizedIsUnit(sqrt: real -> real, v: Vector2)
    requires Distance(sqrt, v, Zero) > 0.0
    requires Distance(sqrt, v, Zero) * Distance(sqrt, v, Zero) == Dot(v, v)
    ensures Dot(Normalized(sqrt, v), Normalized(sqrt, v)) == 1.0
  {
    var mag := Distance(sqrt, v, Zero);
    var r := Normalized(sqrt, v);
    assert Sub(Zero, v) == Vector2(-v.x, -v.y);
    calc {
      Dot(r, r) * (mag * mag);
      (r.x * mag) * (r.x * mag) + (r.y * mag) * (r.y * mag);
      v.x * v.x + v.y * v.y;
      mag * mag;
    }
  }
}
