/**
 * Displacement vectors of vector.rs.  A normal (`Vector2<T, Normal<U>>`)
 * differs from a vector only in its phantom unit, so both are the same
 * datatype here.
 */
module Vectors {
  import Num
  import opened Axes
  import opened Masks
  import opened Places

  datatype Vector2 = Vector2(x: real, y: real)
  {
    static function Zero(): Vector2 { Vector2(0.0, 0.0) }

    static function One(): Vector2 { Vector2(1.0, 1.0) }

    static function Splat(v: real): Vector2 { Vector2(v, v) }

    function LengthSquared(): real { x * x + y * y }

    function Lerp(other: Vector2, t: real): Vector2
    {
      var oneMinusT := 1.0 - t;
      Vector2(oneMinusT * x + t * other.x, oneMinusT * y + t * other.y)
    }

    function Dot(other: Vector2): real { x * other.x + y * other.y }

    /** The z component of the 3D cross product of the two vectors. */
    function Cross(other: Vector2): real { x * other.y - y * other.x }

    function ComponentMul(rhs: Vector2): Vector2 { Vector2(x * rhs.x, y * rhs.y) }

    function ComponentDiv(rhs: Vector2): Vector2
      requires rhs.x != 0.0 && rhs.y != 0.0
    {
      Vector2(x / rhs.x, y / rhs.y)
    }

    function ProjectOnto(onto: Vector2): Vector2
      requires onto.LengthSquared() != 0.0
    {
      onto.Mul(Dot(onto) / onto.LengthSquared())
    }

    function Reflect(normal: Vector2): Vector2
    {
      var two := 1.0 + 1.0;
      Sub(normal.Mul(two).Mul(Dot(normal)))
    }

    function Extend(z: real): Vector3 { Vector3(x, y, z) }

    function CmpEq(other: Vector2): Mask2 { Mask2(x == other.x, y == other.y) }

    function CmpNe(other: Vector2): Mask2 { Mask2(x != other.x, y != other.y) }

    function CmpLt(other: Vector2): Mask2 { Mask2(x < other.x, y < other.y) }

    function CmpLe(other: Vector2): Mask2 { Mask2(x <= other.x, y <= other.y) }

    function CmpGt(other: Vector2): Mask2 { Mask2(x > other.x, y > other.y) }

    function CmpGe(other: Vector2): Mask2 { Mask2(x >= other.x, y >= other.y) }

    function Min(other: Vector2): Vector2 { Vector2(Num.Min(x, other.x), Num.Min(y, other.y)) }

    function Max(other: Vector2): Vector2 { Vector2(Num.Max(x, other.x), Num.Max(y, other.y)) }

    function Clamp(lo: Vector2, hi: Vector2): Vector2 { Max(lo).Min(hi) }

    function Index(axis: Axis2): real
    {
      match axis
      case X => x
      case Y => y
    }

    function Neg(): Vector2 { Vector2(-x, -y) }

    function Mul(rhs: real): Vector2 { Vector2(x * rhs, y * rhs) }

    function Div(rhs: real): Vector2
      requires rhs != 0.0
    {
      Vector2(x / rhs, y / rhs)
    }

    function Add(rhs: Vector2): Vector2 { Vector2(x + rhs.x, y + rhs.y) }

    function Sub(rhs: Vector2): Vector2 { Vector2(x - rhs.x, y - rhs.y) }

    function Round(): Vector2 { Vector2(Num.Round(x), Num.Round(y)) }

    function Ceil(): Vector2 { Vector2(Num.Ceil(x), Num.Ceil(y)) }

    function Floor(): Vector2 { Vector2(Num.Floor(x), Num.Floor(y)) }
  }

  datatype Vector3 = Vector3(x: real, y: real, z: real)
  {
    static function Zero(): Vector3 { Vector3(0.0, 0.0, 0.0) }

    static function One(): Vector3 { Vector3(1.0, 1.0, 1.0) }

    static function Splat(v: real): Vector3 { Vector3(v, v, v) }

    function LengthSquared(): real { x * x + y * y + z * z }

    function Lerp(other: Vector3, t: real): Vector3
    {
      var oneMinusT := 1.0 - t;
      Vector3(oneMinusT * x + t * other.x, oneMinusT * y + t * other.y, oneMinusT * z + t * other.z)
    }

    function Dot(other: Vector3): real { x * other.x + y * other.y + z * other.z }

    function Cross(other: Vector3): Vector3
    {
      Vector3(y * other.z - z * other.y, z * other.x - x * other.z, x * other.y - y * other.x)
    }

    function ComponentMul(rhs: Vector3): Vector3 { Vector3(x * rhs.x, y * rhs.y, z * rhs.z) }

    function ComponentDiv(rhs: Vector3): Vector3
      requires rhs.x != 0.0 && rhs.y != 0.0 && rhs.z != 0.0
    {
      Vector3(x / rhs.x, y / rhs.y, z / rhs.z)
    }

    function ProjectOnto(onto: Vector3): Vector3
      requires onto.LengthSquared() != 0.0
    {
      onto.Mul(Dot(onto) / onto.LengthSquared())
    }

    function Reflect(normal: Vector3): Vector3
    {
      var two := 1.0 + 1.0;
      Sub(normal.Mul(two).Mul(Dot(normal)))
    }

    /** Flips a normal so that it points to the same side as `v`. */
    function FaceTowards(v: Vector3): Vector3
    {
      if Dot(v) < 0.0 then Neg() else this
    }

    function CmpEq(other: Vector3): Mask3 { Mask3(x == other.x, y == other.y, z == other.z) }

    function CmpNe(other: Vector3): Mask3 { Mask3(x != other.x, y != other.y, z != other.z) }

    function CmpLt(other: Vector3): Mask3 { Mask3(x < other.x, y < other.y, z < other.z) }

    function CmpLe(other: Vector3): Mask3 { Mask3(x <= other.x, y <= other.y, z <= other.z) }

    function CmpGt(other: Vector3): Mask3 { Mask3(x > other.x, y > other.y, z > other.z) }

    function CmpGe(other: Vector3): Mask3 { Mask3(x >= other.x, y >= other.y, z >= other.z) }

    function Min(other: Vector3): Vector3
    {
      Vector3(Num.Min(x, other.x), Num.Min(y, other.y), Num.Min(z, other.z))
    }

    function Max(other: Vector3): Vector3
    {
      Vector3(Num.Max(x, other.x), Num.Max(y, other.y), Num.Max(z, other.z))
    }

    function Clamp(lo: Vector3, hi: Vector3): Vector3 { Max(lo).Min(hi) }

    function Index(axis: Axis3): real
    {
      match axis
      case X => x
      case Y => y
      case Z => z
    }

    function Neg(): Vector3 { Vector3(-x, -y, -z) }

    function Mul(rhs: real): Vector3 { Vector3(x * rhs, y * rhs, z * rhs) }

    function Div(rhs: real): Vector3
      requires rhs != 0.0
    {
      Vector3(x / rhs, y / rhs, z / rhs)
    }

    function Add(rhs: Vector3): Vector3 { Vector3(x + rhs.x, y + rhs.y, z + rhs.z) }

    function Sub(rhs: Vector3): Vector3 { Vector3(x - rhs.x, y - rhs.y, z - rhs.z) }

    function Round(): Vector3 { Vector3(Num.Round(x), Num.Round(y), Num.Round(z)) }

    function Ceil(): Vector3 { Vector3(Num.Ceil(x), Num.Ceil(y), Num.Ceil(z)) }

    function Floor(): Vector3 { Vector3(Num.Floor(x), Num.Floor(y), Num.Floor(z)) }
  }

  /** `Mask2::select` on vectors: each component from `a` where the flag is set, else from `b`. */
  function Select2(m: Mask2, a: Vector2, b: Vector2): Vector2
  {
    Vector2(if m.x then a.x else b.x, if m.y then a.y else b.y)
  }

  function Select3(m: Mask3, a: Vector3, b: Vector3): Vector3
  {
    Vector3(if m.x then a.x else b.x, if m.y then a.y else b.y, if m.z then a.z else b.z)
  }

  // ---------------------------------------------------------------------
  // Algebraic laws

  lemma DotCommutes2(a: Vector2, b: Vector2)
    ensures a.Dot(b) == b.Dot(a)
  {
  }

  lemma DotCommutes3(a: Vector3, b: Vector3)
    ensures a.Dot(b) == b.Dot(a)
  {
  }

  /** The 2D cross product is antisymmetric and vanishes on a vector and itself. */
  lemma Cross2Antisymmetric(a: Vector2, b: Vector2)
    ensures a.Cross(b) == -b.Cross(a)
    ensures a.Cross(a) == 0.0
  {
  }

  /** The 3D cross product is antisymmetric and orthogonal to both operands. */
  lemma Cross3Laws(a: Vector3, b: Vector3)
    ensures a.Cross(b) == b.Cross(a).Neg()
    ensures a.Cross(b).Dot(a) == 0.0
    ensures a.Cross(b).Dot(b) == 0.0
  {
  }

  lemma LerpEndpoints2(a: Vector2, b: Vector2)
    ensures a.Lerp(b, 0.0) == a
    ensures a.Lerp(b, 1.0) == b
  {
  }

  lemma LerpEndpoints3(a: Vector3, b: Vector3)
    ensures a.Lerp(b, 0.0) == a
    ensures a.Lerp(b, 1.0) == b
  {
  }

  /** `min` and `max` bound both operands componentwise. */
  lemma MinMaxBounds2(a: Vector2, b: Vector2)
    ensures a.Min(b).CmpLe(a).All() && a.Min(b).CmpLe(b).All()
    ensures a.CmpLe(a.Max(b)).All() && b.CmpLe(a.Max(b)).All()
  {
  }

  lemma MinMaxBounds3(a: Vector3, b: Vector3)
    ensures a.Min(b).CmpLe(a).All() && a.Min(b).CmpLe(b).All()
    ensures a.CmpLe(a.Max(b)).All() && b.CmpLe(a.Max(b)).All()
  {
  }

  /** With `lo <= hi`, `clamp` lands in `[lo, hi]`, and it fixes every vector already there. */
  lemma ClampBounds2(v: Vector2, lo: Vector2, hi: Vector2)
    requires lo.CmpLe(hi).All()
    ensures lo.CmpLe(v.Clamp(lo, hi)).All() && v.Clamp(lo, hi).CmpLe(hi).All()
    ensures lo.CmpLe(v).All() && v.CmpLe(hi).All() ==> v.Clamp(lo, hi) == v
  {
  }

  lemma ClampBounds3(v: Vector3, lo: Vector3, hi: Vector3)
    requires lo.CmpLe(hi).All()
    ensures lo.CmpLe(v.Clamp(lo, hi)).All() && v.Clamp(lo, hi).CmpLe(hi).All()
    ensures lo.CmpLe(v).All() && v.CmpLe(hi).All() ==> v.Clamp(lo, hi) == v
  {
  }

  /**
   * The comparison masks: `cmp_le(..).all()` is the componentwise order,
   * `cmp_ne` negates `cmp_eq`, `gt`/`ge` are `lt`/`le` with the operands
   * swapped, and on reals `cmp_lt` negates `cmp_ge`.
   */
  lemma Compare2(a: Vector2, b: Vector2)
    ensures a.CmpLe(b).All() <==> a.x <= b.x && a.y <= b.y
    ensures a.CmpEq(b).All() <==> a == b
    ensures a.CmpNe(b) == a.CmpEq(b).Not()
    ensures a.CmpGt(b) == b.CmpLt(a) && a.CmpGe(b) == b.CmpLe(a)
    ensures a.CmpLt(b) == a.CmpGe(b).Not()
  {
  }

  lemma Compare3(a: Vector3, b: Vector3)
    ensures a.CmpLe(b).All() <==> a.x <= b.x && a.y <= b.y && a.z <= b.z
    ensures a.CmpEq(b).All() <==> a == b
    ensures a.CmpNe(b) == a.CmpEq(b).Not()
    ensures a.CmpGt(b) == b.CmpLt(a) && a.CmpGe(b) == b.CmpLe(a)
    ensures a.CmpLt(b) == a.CmpGe(b).Not()
  {
  }

  /**
   * `face_towards` returns the normal or its negation, keeps the normal
   * exactly when its dot product with `v` is non-negative, and the result
   * never points away from `v`.
   */
  lemma FaceTowardsLaw(n: Vector3, v: Vector3)
    ensures n.FaceTowards(v).Dot(v) >= 0.0
    ensures n.FaceTowards(v) == n <==> n.Dot(v) >= 0.0
    ensures n.FaceTowards(v) == n || n.FaceTowards(v) == n.Neg()
  {
    if n.Dot(v) < 0.0 {
      NegDot(n, v);
      assert n.x != 0.0 || n.y != 0.0 || n.z != 0.0;
      assert n.Neg() != n;
    }
  }

  lemma NegDot(n: Vector3, v: Vector3)
    ensures n.Neg().Dot(v) == -n.Dot(v)
  {
    assert (-n.x) * v.x == -(n.x * v.x) && (-n.y) * v.y == -(n.y * v.y) && (-n.z) * v.z == -(n.z * v.z);
  }

  /** The remainder `v - v.project_onto(onto)` is orthogonal to `onto`. */
  lemma ProjectOntoOrthogonal2(v: Vector2, onto: Vector2)
    requires onto.LengthSquared() != 0.0
    ensures v.Sub(v.ProjectOnto(onto)).Dot(onto) == 0.0
    ensures onto.ProjectOnto(onto) == onto
  {
    var k := v.Dot(onto) / onto.LengthSquared();
    assert k * onto.LengthSquared() == v.Dot(onto);
    DotAfterSub2(v, onto, k);
    var l := onto.LengthSquared();
    assert onto.Dot(onto) == l && l / l == 1.0;
    assert onto.ProjectOnto(onto) == onto.Mul(1.0);
  }

  lemma ProjectOntoOrthogonal3(v: Vector3, onto: Vector3)
    requires onto.LengthSquared() != 0.0
    ensures v.Sub(v.ProjectOnto(onto)).Dot(onto) == 0.0
    ensures onto.ProjectOnto(onto) == onto
  {
    var k := v.Dot(onto) / onto.LengthSquared();
    assert k * onto.LengthSquared() == v.Dot(onto);
    DotAfterSub3(v, onto, k);
    var l := onto.LengthSquared();
    assert onto.Dot(onto) == l && l / l == 1.0;
    assert onto.ProjectOnto(onto) == onto.Mul(1.0);
  }

  /**
   * For a unit normal, `reflect` flips the component along the normal,
   * keeps the squared length and undoes itself.
   */
  lemma ReflectLaws2(v: Vector2, n: Vector2)
    requires n.LengthSquared() == 1.0
    ensures v.Reflect(n).Dot(n) == -v.Dot(n)
    ensures v.Reflect(n).LengthSquared() == v.LengthSquared()
    ensures v.Reflect(n).Reflect(n) == v
  {
    var d := v.Dot(n);
    var c := 2.0 * d;
    var r := v.Reflect(n);
    ScaleTwice2(n, 1.0 + 1.0, d);
    assert r == v.Sub(n.Mul(c));
    DotAfterSub2(v, n, c);
    LengthAfterSub2(v, n, c);
    assert c * c == 2.0 * c * d;
    ScaleTwice2(n, 1.0 + 1.0, -d);
    assert n.Mul(1.0 + 1.0).Mul(r.Dot(n)) == n.Mul(-c);
  }

  lemma ReflectLaws3(v: Vector3, n: Vector3)
    requires n.LengthSquared() == 1.0
    ensures v.Reflect(n).Dot(n) == -v.Dot(n)
    ensures v.Reflect(n).LengthSquared() == v.LengthSquared()
    ensures v.Reflect(n).Reflect(n) == v
  {
    var d := v.Dot(n);
    var c := 2.0 * d;
    var r := v.Reflect(n);
    ScaleTwice3(n, 1.0 + 1.0, d);
    assert r == v.Sub(n.Mul(c));
    DotAfterSub3(v, n, c);
    LengthAfterSub3(v, n, c);
    assert c * c == 2.0 * c * d;
    ScaleTwice3(n, 1.0 + 1.0, -d);
    assert n.Mul(1.0 + 1.0).Mul(r.Dot(n)) == n.Mul(-c);
  }

  lemma ScaleTwice2(n: Vector2, s: real, t: real)
    ensures n.Mul(s).Mul(t) == n.Mul(s * t)
  {
    assert n.x * s * t == n.x * (s * t);
    assert n.y * s * t == n.y * (s * t);
  }

  lemma ScaleTwice3(n: Vector3, s: real, t: real)
    ensures n.Mul(s).Mul(t) == n.Mul(s * t)
  {
    assert n.x * s * t == n.x * (s * t);
    assert n.y * s * t == n.y * (s * t);
    assert n.z * s * t == n.z * (s * t);
  }

  /** Subtracting `c n` lowers the dot product with `n` by `c |n|²`. */
  lemma DotAfterSub2(v: Vector2, n: Vector2, c: real)
    ensures v.Sub(n.Mul(c)).Dot(n) == v.Dot(n) - c * n.LengthSquared()
  {
    assert (v.x - n.x * c) * n.x == v.x * n.x - c * (n.x * n.x);
    assert (v.y - n.y * c) * n.y == v.y * n.y - c * (n.y * n.y);
  }

  lemma DotAfterSub3(v: Vector3, n: Vector3, c: real)
    ensures v.Sub(n.Mul(c)).Dot(n) == v.Dot(n) - c * n.LengthSquared()
  {
    assert (v.x - n.x * c) * n.x == v.x * n.x - c * (n.x * n.x);
    assert (v.y - n.y * c) * n.y == v.y * n.y - c * (n.y * n.y);
    assert (v.z - n.z * c) * n.z == v.z * n.z - c * (n.z * n.z);
  }

  /** The squared length of `v - c n`. */
  lemma LengthAfterSub2(v: Vector2, n: Vector2, c: real)
    ensures v.Sub(n.Mul(c)).LengthSquared() == v.LengthSquared() - 2.0 * c * v.Dot(n) + c * c * n.LengthSquared()
  {
    assert (v.x - n.x * c) * (v.x - n.x * c) == v.x * v.x - 2.0 * c * (v.x * n.x) + c * c * (n.x * n.x);
    assert (v.y - n.y * c) * (v.y - n.y * c) == v.y * v.y - 2.0 * c * (v.y * n.y) + c * c * (n.y * n.y);
  }

  lemma LengthAfterSub3(v: Vector3, n: Vector3, c: real)
    ensures v.Sub(n.Mul(c)).LengthSquared() == v.LengthSquared() - 2.0 * c * v.Dot(n) + c * c * n.LengthSquared()
  {
    assert (v.x - n.x * c) * (v.x - n.x * c) == v.x * v.x - 2.0 * c * (v.x * n.x) + c * c * (n.x * n.x);
    assert (v.y - n.y * c) * (v.y - n.y * c) == v.y * v.y - 2.0 * c * (v.y * n.y) + c * c * (n.y * n.y);
    assert (v.z - n.z * c) * (v.z - n.z * c) == v.z * v.z - 2.0 * c * (v.z * n.z) + c * c * (n.z * n.z);
  }

  /** Negation, addition and scaling undo each other. */
  lemma ArithmeticInverses2(a: Vector2, b: Vector2, s: real)
    ensures a.Neg().Neg() == a
    ensures a.Add(b).Sub(b) == a && a.Sub(b).Add(b) == a
    ensures a.Add(b) == b.Add(a)
    ensures s != 0.0 ==> a.Mul(s).Div(s) == a
  {
  }

  lemma ArithmeticInverses3(a: Vector3, b: Vector3, s: real)
    ensures a.Neg().Neg() == a
    ensures a.Add(b).Sub(b) == a && a.Sub(b).Add(b) == a
    ensures a.Add(b) == b.Add(a)
    ensures s != 0.0 ==> a.Mul(s).Div(s) == a
  {
  }

  /** `component_div` undoes `component_mul` by the same nonzero vector. */
  lemma ComponentMulDiv2(a: Vector2, b: Vector2)
    requires b.x != 0.0 && b.y != 0.0
    ensures a.ComponentMul(b).ComponentDiv(b) == a
  {
  }

  lemma ComponentMulDiv3(a: Vector3, b: Vector3)
    requires b.x != 0.0 && b.y != 0.0 && b.z != 0.0
    ensures a.ComponentMul(b).ComponentDiv(b) == a
  {
  }

  /** `splat`, `zero`, `one` and `extend` place the given values on every axis. */
  lemma Constructors2(v: real, u: Vector2, z: real)
    ensures forall a: Axis2 :: Vector2.Splat(v).Index(a) == v
    ensures forall a: Axis2 :: Vector2.Zero().Index(a) == 0.0 && Vector2.One().Index(a) == 1.0
    ensures u.Extend(z).x == u.x && u.Extend(z).y == u.y && u.Extend(z).z == z
  {
  }

  lemma Constructors3(v: real)
    ensures forall a: Axis3 :: Vector3.Splat(v).Index(a) == v
    ensures forall a: Axis3 :: Vector3.Zero().Index(a) == 0.0 && Vector3.One().Index(a) == 1.0
  {
  }

  /** Rounding: `floor <= v <= ceil` componentwise, and `round` is within one half. */
  lemma Rounding2(v: Vector2)
    ensures v.Floor().CmpLe(v).All() && v.CmpLe(v.Ceil()).All()
    ensures v.Sub(Vector2.Splat(0.5)).CmpLt(v.Round()).All() && v.Round().CmpLe(v.Add(Vector2.Splat(0.5))).All()
    ensures Num.Integral(v.Floor().x) && Num.Integral(v.Floor().y)
    ensures Num.Integral(v.Ceil().x) && Num.Integral(v.Ceil().y)
    ensures Num.Integral(v.Round().x) && Num.Integral(v.Round().y)
  {
  }

  lemma Rounding3(v: Vector3)
    ensures v.Floor().CmpLe(v).All() && v.CmpLe(v.Ceil()).All()
    ensures v.Sub(Vector3.Splat(0.5)).CmpLt(v.Round()).All() && v.Round().CmpLe(v.Add(Vector3.Splat(0.5))).All()
    ensures Num.Integral(v.Floor().x) && Num.Integral(v.Floor().y) && Num.Integral(v.Floor().z)
    ensures Num.Integral(v.Ceil().x) && Num.Integral(v.Ceil().y) && Num.Integral(v.Ceil().z)
    ensures Num.Integral(v.Round().x) && Num.Integral(v.Round().y) && Num.Integral(v.Round().z)
  {
  }

  /** `select` reads each axis from the operand its flag names; all-true gives `a`, all-false gives `b`. */
  lemma SelectLaws2(m: Mask2, a: Vector2, b: Vector2)
    ensures forall axis: Axis2 :: Select2(m, a, b).Index(axis) == if m.Index(axis) then a.Index(axis) else b.Index(axis)
    ensures m.All() ==> Select2(m, a, b) == a
    ensures m.None() ==> Select2(m, a, b) == b
    ensures Select2(m.Not(), a, b) == Select2(m, b, a)
  {
  }

  lemma SelectLaws3(m: Mask3, a: Vector3, b: Vector3)
    ensures forall axis: Axis3 :: Select3(m, a, b).Index(axis) == if m.Index(axis) then a.Index(axis) else b.Index(axis)
    ensures m.All() ==> Select3(m, a, b) == a
    ensures m.None() ==> Select3(m, a, b) == b
    ensures Select3(m.Not(), a, b) == Select3(m, b, a)
  {
  }

  // ---------------------------------------------------------------------
  // In-place operators and `IndexMut`

  method AddAssign2(place: Place<Vector2>, rhs: Vector2)
    modifies place
    ensures place.value == old(place.value).Add(rhs)
  {
    place.value := place.value.(x := place.value.x + rhs.x);
    place.value := place.value.(y := place.value.y + rhs.y);
  }

  method SubAssign2(place: Place<Vector2>, rhs: Vector2)
    modifies place
    ensures place.value == old(place.value).Sub(rhs)
  {
    place.value := place.value.(x := place.value.x - rhs.x);
    place.value := place.value.(y := place.value.y - rhs.y);
  }

  method MulAssign2(place: Place<Vector2>, rhs: real)
    modifies place
    ensures place.value == old(place.value).Mul(rhs)
  {
    place.value := place.value.(x := place.value.x * rhs);
    place.value := place.value.(y := place.value.y * rhs);
  }

  method DivAssign2(place: Place<Vector2>, rhs: real)
    requires rhs != 0.0
    modifies place
    ensures place.value == old(place.value).Div(rhs)
  {
    place.value := place.value.(x := place.value.x / rhs);
    place.value := place.value.(y := place.value.y / rhs);
  }

  method AddAssign3(place: Place<Vector3>, rhs: Vector3)
    modifies place
    ensures place.value == old(place.value).Add(rhs)
  {
    place.value := place.value.(x := place.value.x + rhs.x);
    place.value := place.value.(y := place.value.y + rhs.y);
    place.value := place.value.(z := place.value.z + rhs.z);
  }

  method SubAssign3(place: Place<Vector3>, rhs: Vector3)
    modifies place
    ensures place.value == old(place.value).Sub(rhs)
  {
    place.value := place.value.(x := place.value.x - rhs.x);
    place.value := place.value.(y := place.value.y - rhs.y);
    place.value := place.value.(z := place.value.z - rhs.z);
  }

  method MulAssign3(place: Place<Vector3>, rhs: real)
    modifies place
    ensures place.value == old(place.value).Mul(rhs)
  {
    place.value := place.value.(x := place.value.x * rhs);
    place.value := place.value.(y := place.value.y * rhs);
    place.value := place.value.(z := place.value.z * rhs);
  }

  method DivAssign3(place: Place<Vector3>, rhs: real)
    requires rhs != 0.0
    modifies place
    ensures place.value == old(place.value).Div(rhs)
  {
    place.value := place.value.(x := place.value.x / rhs);
    place.value := place.value.(y := place.value.y / rhs);
    place.value := place.value.(z := place.value.z / rhs);
  }

  /** Writing a component through `IndexMut`: only the component of `axis` changes. */
  method IndexMut2(place: Place<Vector2>, axis: Axis2, v: real)
    modifies place
    ensures place.value.Index(axis) == v
    ensures forall other: Axis2 :: other != axis ==> place.value.Index(other) == old(place.value).Index(other)
  {
    match axis
    case X => place.value := place.value.(x := v);
    case Y => place.value := place.value.(y := v);
  }

  method IndexMut3(place: Place<Vector3>, axis: Axis3, v: real)
    modifies place
    ensures place.value.Index(axis) == v
    ensures forall other: Axis3 :: other != axis ==> place.value.Index(other) == old(place.value).Index(other)
  {
    match axis
    case X => place.value := place.value.(x := v);
    case Y => place.value := place.value.(y := v);
    case Z => place.value := place.value.(z := v);
  }

  // ---------------------------------------------------------------------
  // `Sum`: a left fold of `+` starting from zero

  /** The left fold `zero + vs[0] + vs[1] + ...`. */
  function Total2(vs: seq<Vector2>): Vector2
  {
    if |vs| == 0 then Vector2.Zero() else Total2(vs[..|vs| - 1]).Add(vs[|vs| - 1])
  }

  function Total3(vs: seq<Vector3>): Vector3
  {
    if |vs| == 0 then Vector3.Zero() else Total3(vs[..|vs| - 1]).Add(vs[|vs| - 1])
  }

  method Sum2(vs: seq<Vector2>) returns (r: Vector2)
    ensures r == Total2(vs)
  {
    r := Vector2.Zero();
    var i := 0;
    while i < |vs|
      invariant 0 <= i <= |vs|
      invariant r == Total2(vs[..i])
    {
      assert vs[..i + 1][..i] == vs[..i];
      r := r.Add(vs[i]);
      i := i + 1;
    }
    assert vs[..|vs|] == vs;
  }

  method Sum3(vs: seq<Vector3>) returns (r: Vector3)
    ensures r == Total3(vs)
  {
    r := Vector3.Zero();
    var i := 0;
    while i < |vs|
      invariant 0 <= i <= |vs|
      invariant r == Total3(vs[..i])
    {
      assert vs[..i + 1][..i] == vs[..i];
      r := r.Add(vs[i]);
      i := i + 1;
    }
    assert vs[..|vs|] == vs;
  }

  /** The sum of a concatenation is the sum of the sums; the sum of nothing is zero. */
  lemma {:induction false} Total2Append(a: seq<Vector2>, b: seq<Vector2>)
    ensures Total2(a + b) == Total2(a).Add(Total2(b))
    ensures Total2([]) == Vector2.Zero()
    decreases |b|
  {
    if |b| == 0 {
      assert a + b == a;
    } else {
      var b' := b[..|b| - 1];
      assert (a + b)[..|a + b| - 1] == a + b';
      Total2Append(a, b');
    }
  }

  lemma {:induction false} Total3Append(a: seq<Vector3>, b: seq<Vector3>)
    ensures Total3(a + b) == Total3(a).Add(Total3(b))
    ensures Total3([]) == Vector3.Zero()
    decreases |b|
  {
    if |b| == 0 {
      assert a + b == a;
    } else {
      var b' := b[..|b| - 1];
      assert (a + b)[..|a + b| - 1] == a + b';
      Total3Append(a, b');
    }
  }
}
