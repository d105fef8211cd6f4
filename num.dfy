/**
 * Scalar helpers of num.rs: the generic `min`/`max`, the rounding traits and
 * the element-wise approximate equality of fixed-size arrays.  The scalar
 * type of the library is modelled by `real`.
 */
module Num {
  /** num.rs `min` over any comparison `le` standing for `<=`. */
  function MinBy<T>(le: (T, T) -> bool, x: T, y: T): T
  {
    if le(x, y) then x else y
  }

  /** num.rs `max`: `x >= y` is `y <= x` under a partial order. */
  function MaxBy<T>(le: (T, T) -> bool, x: T, y: T): T
  {
    if le(y, x) then x else y
  }

  predicate RealLe(a: real, b: real)
  {
    a <= b
  }

  /** `min` at the real scalar type, as used by every componentwise `min`. */
  function Min(x: real, y: real): (r: real)
    ensures r <= x && r <= y
    ensures r == x || r == y
  {
    MinBy(RealLe, x, y)
  }

  /** `max` at the real scalar type, as used by every componentwise `max`. */
  function Max(x: real, y: real): (r: real)
    ensures r >= x && r >= y
    ensures r == x || r == y
  {
    MaxBy(RealLe, x, y)
  }

  /** Ties go to the first argument, for both `min` and `max`. */
  lemma MinMaxTiesToFirst<T>(le: (T, T) -> bool, x: T, y: T)
    requires le(x, y) && le(y, x)
    ensures MinBy(le, x, y) == x
    ensures MaxBy(le, x, y) == x
  {
  }

  /** Unordered arguments (a NaN, for floats) make both return the second. */
  lemma MinMaxUnordered<T>(le: (T, T) -> bool, x: T, y: T)
    requires !le(x, y) && !le(y, x)
    ensures MinBy(le, x, y) == y
    ensures MaxBy(le, x, y) == y
  {
  }

  /**
   * When `le` is reflexive on the two inputs and they are comparable, `min`
   * is below both, `max` above both, and each result is one of the inputs.
   */
  lemma MinMaxBounds<T>(le: (T, T) -> bool, x: T, y: T)
    requires le(x, x) && le(y, y)
    requires le(x, y) || le(y, x)
    ensures le(MinBy(le, x, y), x) && le(MinBy(le, x, y), y)
    ensures le(x, MaxBy(le, x, y)) && le(y, MaxBy(le, x, y))
    ensures MinBy(le, x, y) == x || MinBy(le, x, y) == y
    ensures MaxBy(le, x, y) == x || MaxBy(le, x, y) == y
  {
  }

  /** The integer `Round`, `Ceil` and `Floor` impls return their argument. */
  function RoundInt(x: int): int { x }

  function CeilInt(x: int): int { x }

  function FloorInt(x: int): int { x }

  lemma IntegerRoundingIsIdentity(x: int)
    ensures RoundInt(x) == x && CeilInt(x) == x && FloorInt(x) == x
  {
  }

  /** `x` is a whole number. */
  predicate Integral(x: real) { x == x.Floor as real }

  /** `Floor` at the real scalar type: the largest integer not above `x`. */
  function Floor(x: real): (r: real)
    ensures r <= x < r + 1.0
    ensures Integral(r)
  {
    x.Floor as real
  }

  /** `Ceil` at the real scalar type: the smallest integer not below `x`. */
  function Ceil(x: real): (r: real)
    ensures r - 1.0 < x <= r
    ensures Integral(r)
  {
    var k := (-x).Floor;
    (-k) as real
  }

  /** `Round` at the real scalar type, defined as `floor(x + 0.5)`. */
  function Round(x: real): (r: real)
    ensures x - 0.5 < r <= x + 0.5
    ensures Integral(r)
  {
    Floor(x + 0.5)
  }

  /**
   * The `approx_eq_eps` of `[T; N]`: every pair of elements at the same
   * position satisfies the element predicate `elemEq`, checked front to
   * back as `iter().zip().all()` does.
   */
  function ApproxEqEps<T, E>(elemEq: (T, T, E) -> bool, a: seq<T>, b: seq<T>, eps: E): bool
    requires |a| == |b|
  {
    |a| == 0 || (elemEq(a[0], b[0], eps) && ApproxEqEps(elemEq, a[1..], b[1..], eps))
  }

  lemma {:induction false} ApproxEqEpsAll<T, E>(elemEq: (T, T, E) -> bool, a: seq<T>, b: seq<T>, eps: E)
    requires |a| == |b|
    ensures ApproxEqEps(elemEq, a, b, eps) <==> forall i :: 0 <= i < |a| ==> elemEq(a[i], b[i], eps)
  {
    if |a| > 0 {
      ApproxEqEpsAll(elemEq, a[1..], b[1..], eps);
      assert forall i :: 1 <= i < |a| ==> a[i] == a[1..][i - 1] && b[i] == b[1..][i - 1];
    }
  }

  /** The scalar `approx_eq_eps`: the distance is strictly below `eps`. */
  predicate RealApproxEqEps(x: real, y: real, eps: real)
  {
    -eps < x - y < eps
  }

  /** The scalar comparison is symmetric, holds for equal values exactly when `eps` is positive, and never holds for `eps <= 0`. */
  lemma RealApproxEqEpsLaws(x: real, y: real, eps: real)
    ensures RealApproxEqEps(x, y, eps) <==> RealApproxEqEps(y, x, eps)
    ensures RealApproxEqEps(x, x, eps) <==> eps > 0.0
    ensures eps <= 0.0 ==> !RealApproxEqEps(x, y, eps)
  {
  }

  // Scaling steps: facts about one product with a real factor, kept apart so
  // that the laws of points, boxes and scales see no nonlinear arithmetic.

  /** A positive factor keeps the order of two values. */
  lemma ScaleKeepsOrder(x: real, y: real, s: real)
    requires s > 0.0
    ensures x < y <==> x * s < y * s
  {
    if x < y {
      assert (y - x) * s > 0.0;
    } else {
      assert (x - y) * s >= 0.0;
    }
  }
}
