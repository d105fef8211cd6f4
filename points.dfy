/** Positions of point.rs, and how they combine with vectors and sizes. */
module Points {
  import Num
  import opened Axes
  import opened Masks
  import opened Places
  import opened Sizes
  import opened Vectors

  datatype Point2 = Point2(x: real, y: real)
  {
    static function Splat(v: real): Point2 { Point2(v, v) }

    static function Origin(): Point2 { Point2(0.0, 0.0) }

    /** The `Zero` impl, separate from `origin` in the source. */
    static function Zero(): Point2 { Point2(0.0, 0.0) }

    /** `Vector2::to_point`. */
    static function FromVector(v: Vector2): Point2 { Point2(v.x, v.y) }

    function ToVector(): Vector2 { Vector2(x, y) }

    function Extend(z: real): Point3 { Point3(x, y, z) }

    /** The componentwise order `self <= other` used to state bounds. */
    function Le(other: Point2): bool { x <= other.x && y <= other.y }

    function Lerp(other: Point2, t: real): Point2
    {
      var oneMinusT := 1.0 - t;
      Point2(oneMinusT * x + t * other.x, oneMinusT * y + t * other.y)
    }

    function Min(other: Point2): Point2 { Point2(Num.Min(x, other.x), Num.Min(y, other.y)) }

    function Max(other: Point2): Point2 { Point2(Num.Max(x, other.x), Num.Max(y, other.y)) }

    function Clamp(lo: Point2, hi: Point2): Point2 { Max(lo).Min(hi) }

    function Index(axis: Axis2): real
    {
      match axis
      case X => x
      case Y => y
    }

    function Neg(): Point2 { Point2(-x, -y) }

    function Mul(rhs: real): Point2 { Point2(x * rhs, y * rhs) }

    function Div(rhs: real): Point2
      requires rhs != 0.0
    {
      Point2(x / rhs, y / rhs)
    }

    function AddVector(v: Vector2): Point2 { Point2(x + v.x, y + v.y) }

    function SubVector(v: Vector2): Point2 { Point2(x - v.x, y - v.y) }

    /** Point - Point is the displacement vector from `rhs` to `self`. */
    function Sub(rhs: Point2): Vector2 { Vector2(x - rhs.x, y - rhs.y) }

    function AddSize(s: Size2): Point2 { Point2(x + s.x, y + s.y) }

    function SubSize(s: Size2): Point2 { Point2(x - s.x, y - s.y) }

    function Round(): Point2 { Point2(Num.Round(x), Num.Round(y)) }

    function Ceil(): Point2 { Point2(Num.Ceil(x), Num.Ceil(y)) }

    function Floor(): Point2 { Point2(Num.Floor(x), Num.Floor(y)) }
  }

  datatype Point3 = Point3(x: real, y: real, z: real)
  {
    static function Splat(v: real): Point3 { Point3(v, v, v) }

    static function Origin(): Point3 { Point3(0.0, 0.0, 0.0) }

    /** The `Zero` impl, separate from `origin` in the source. */
    static function Zero(): Point3 { Point3(0.0, 0.0, 0.0) }

    /** `Vector3::to_point`. */
    static function FromVector(v: Vector3): Point3 { Point3(v.x, v.y, v.z) }

    function ToVector(): Vector3 { Vector3(x, y, z) }

    /** The componentwise order `self <= other` used to state bounds. */
    function Le(other: Point3): bool { x <= other.x && y <= other.y && z <= other.z }

    function Lerp(other: Point3, t: real): Point3
    {
      var oneMinusT := 1.0 - t;
      Point3(oneMinusT * x + t * other.x, oneMinusT * y + t * other.y, oneMinusT * z + t * other.z)
    }

    function Min(other: Point3): Point3
    {
      Point3(Num.Min(x, other.x), Num.Min(y, other.y), Num.Min(z, other.z))
    }

    function Max(other: Point3): Point3
    {
      Point3(Num.Max(x, other.x), Num.Max(y, other.y), Num.Max(z, other.z))
    }

    function Clamp(lo: Point3, hi: Point3): Point3 { Max(lo).Min(hi) }

    function Index(axis: Axis3): real
    {
      match axis
      case X => x
      case Y => y
      case Z => z
    }

    function Neg(): Point3 { Point3(-x, -y, -z) }

    function Mul(rhs: real): Point3 { Point3(x * rhs, y * rhs, z * rhs) }

    function Div(rhs: real): Point3
      requires rhs != 0.0
    {
      Point3(x / rhs, y / rhs, z / rhs)
    }

    function AddVector(v: Vector3): Point3 { Point3(x + v.x, y + v.y, z + v.z) }

    function SubVector(v: Vector3): Point3 { Point3(x - v.x, y - v.y, z - v.z) }

    /** Point - Point is the displacement vector from `rhs` to `self`. */
    function Sub(rhs: Point3): Vector3 { Vector3(x - rhs.x, y - rhs.y, z - rhs.z) }

    function AddSize(s: Size3): Point3 { Point3(x + s.x, y + s.y, z + s.z) }

    function SubSize(s: Size3): Point3 { Point3(x - s.x, y - s.y, z - s.z) }

    function Round(): Point3 { Point3(Num.Round(x), Num.Round(y), Num.Round(z)) }

    function Ceil(): Point3 { Point3(Num.Ceil(x), Num.Ceil(y), Num.Ceil(z)) }

    function Floor(): Point3 { Point3(Num.Floor(x), Num.Floor(y), Num.Floor(z)) }
  }

  /** `Mask2::select` on points: each component from `a` where the flag is set, else from `b`. */
  function Select2(m: Mask2, a: Point2, b: Point2): Point2
  {
    Point2(if m.x then a.x else b.x, if m.y then a.y else b.y)
  }

  function Select3(m: Mask3, a: Point3, b: Point3): Point3
  {
    Point3(if m.x then a.x else b.x, if m.y then a.y else b.y, if m.z then a.z else b.z)
  }

  lemma SelectLaws2(m: Mask2, a: Point2, b: Point2)
    ensures forall axis: Axis2 :: Select2(m, a, b).Index(axis) == if m.Index(axis) then a.Index(axis) else b.Index(axis)
    ensures m.All() ==> Select2(m, a, b) == a
    ensures m.None() ==> Select2(m, a, b) == b
  {
  }

  lemma SelectLaws3(m: Mask3, a: Point3, b: Point3)
    ensures forall axis: Axis3 :: Select3(m, a, b).Index(axis) == if m.Index(axis) then a.Index(axis) else b.Index(axis)
    ensures m.All() ==> Select3(m, a, b) == a
    ensures m.None() ==> Select3(m, a, b) == b
  {
  }

  /** `origin` and `zero` are the same all-zero point, and it is the point of the zero vector. */
  lemma OriginIsZero()
    ensures Point2.Origin() == Point2.Zero() == Point2.FromVector(Vector2.Zero())
    ensures forall a: Axis2 :: Point2.Origin().Index(a) == 0.0
    ensures Point3.Origin() == Point3.Zero() == Point3.FromVector(Vector3.Zero())
    ensures forall a: Axis3 :: Point3.Origin().Index(a) == 0.0
  {
  }

  /** `min`/`max` bound both operands; `clamp` lands in `[lo, hi]` when `lo <= hi`. */
  lemma MinMaxClamp2(a: Point2, b: Point2, lo: Point2, hi: Point2)
    ensures a.Min(b).Le(a) && a.Min(b).Le(b) && a.Le(a.Max(b)) && b.Le(a.Max(b))
    ensures lo.Le(hi) ==> lo.Le(a.Clamp(lo, hi)) && a.Clamp(lo, hi).Le(hi)
    ensures lo.Le(a) && a.Le(hi) ==> a.Clamp(lo, hi) == a
  {
  }

  lemma MinMaxClamp3(a: Point3, b: Point3, lo: Point3, hi: Point3)
    ensures a.Min(b).Le(a) && a.Min(b).Le(b) && a.Le(a.Max(b)) && b.Le(a.Max(b))
    ensures lo.Le(hi) ==> lo.Le(a.Clamp(lo, hi)) && a.Clamp(lo, hi).Le(hi)
    ensures lo.Le(a) && a.Le(hi) ==> a.Clamp(lo, hi) == a
  {
  }

  lemma LerpEndpoints2(a: Point2, b: Point2)
    ensures a.Lerp(b, 0.0) == a
    ensures a.Lerp(b, 1.0) == b
  {
  }

  lemma LerpEndpoints3(a: Point3, b: Point3)
    ensures a.Lerp(b, 0.0) == a
    ensures a.Lerp(b, 1.0) == b
  {
  }

  /**
   * Affine laws: `p + (q - p) == q`, adding then subtracting a vector or
   * a size gives back the point, and the point/vector conversions are
   * inverse to each other.
   */
  lemma AffineLaws2(p: Point2, q: Point2, v: Vector2, s: Size2)
    ensures p.AddVector(q.Sub(p)) == q
    ensures p.AddVector(v).SubVector(v) == p && p.SubVector(v).AddVector(v) == p
    ensures p.AddSize(s).SubSize(s) == p && p.SubSize(s).AddSize(s) == p
    ensures p.AddVector(v).Sub(p) == v
    ensures Point2.FromVector(p.ToVector()) == p && Point2.FromVector(v).ToVector() == v
    ensures p.Sub(Point2.Origin()) == p.ToVector()
  {
  }

  lemma AffineLaws3(p: Point3, q: Point3, v: Vector3, s: Size3)
    ensures p.AddVector(q.Sub(p)) == q
    ensures p.AddVector(v).SubVector(v) == p && p.SubVector(v).AddVector(v) == p
    ensures p.AddSize(s).SubSize(s) == p && p.SubSize(s).AddSize(s) == p
    ensures p.AddVector(v).Sub(p) == v
    ensures Point3.FromVector(p.ToVector()) == p && Point3.FromVector(v).ToVector() == v
    ensures p.Sub(Point3.Origin()) == p.ToVector()
  {
  }

  lemma ScalarLaws2(p: Point2, s: real)
    ensures p.Neg().Neg() == p
    ensures s != 0.0 ==> p.Mul(s).Div(s) == p
    ensures p.Mul(s).ToVector() == p.ToVector().Mul(s)
  {
  }

  lemma ScalarLaws3(p: Point3, s: real)
    ensures p.Neg().Neg() == p
    ensures s != 0.0 ==> p.Mul(s).Div(s) == p
    ensures p.Mul(s).ToVector() == p.ToVector().Mul(s)
  {
  }

  /**
   * Rounding: every coordinate of `floor(p)`, `ceil(p)` and `round(p)` is a
   * whole number, `floor(p) <= p < floor(p) + 1` and `ceil(p) - 1 < p <= ceil(p)`
   * componentwise, and `round(p)` is within half a unit of `p` (halves up).
   */
  lemma Rounding2(p: Point2)
    ensures p.Floor().Le(p) && p.Le(p.Ceil())
    ensures p.x < p.Floor().x + 1.0 && p.y < p.Floor().y + 1.0
    ensures p.Ceil().x - 1.0 < p.x && p.Ceil().y - 1.0 < p.y
    ensures p.x - 0.5 < p.Round().x <= p.x + 0.5 && p.y - 0.5 < p.Round().y <= p.y + 0.5
    ensures Num.Integral(p.Floor().x) && Num.Integral(p.Floor().y)
    ensures Num.Integral(p.Ceil().x) && Num.Integral(p.Ceil().y)
    ensures Num.Integral(p.Round().x) && Num.Integral(p.Round().y)
  {
  }

  lemma Rounding3(p: Point3)
    ensures p.Floor().Le(p) && p.Le(p.Ceil())
    ensures p.x < p.Floor().x + 1.0 && p.y < p.Floor().y + 1.0 && p.z < p.Floor().z + 1.0
    ensures p.Ceil().x - 1.0 < p.x && p.Ceil().y - 1.0 < p.y && p.Ceil().z - 1.0 < p.z
    ensures p.x - 0.5 < p.Round().x <= p.x + 0.5 && p.y - 0.5 < p.Round().y <= p.y + 0.5
    ensures p.z - 0.5 < p.Round().z <= p.z + 0.5
    ensures Num.Integral(p.Floor().x) && Num.Integral(p.Floor().y) && Num.Integral(p.Floor().z)
    ensures Num.Integral(p.Ceil().x) && Num.Integral(p.Ceil().y) && Num.Integral(p.Ceil().z)
    ensures Num.Integral(p.Round().x) && Num.Integral(p.Round().y) && Num.Integral(p.Round().z)
  {
  }

  // ---------------------------------------------------------------------
  // In-place operators and `IndexMut`

  method MulAssign2(place: Place<Point2>, rhs: real)
    modifies place
    ensures place.value == old(place.value).Mul(rhs)
  {
    place.value := place.value.(x := place.value.x * rhs);
    place.value := place.value.(y := place.value.y * rhs);
  }

  method DivAssign2(place: Place<Point2>, rhs: real)
    requires rhs != 0.0
    modifies place
    ensures place.value == old(place.value).Div(rhs)
  {
    place.value := place.value.(x := place.value.x / rhs);
    place.value := place.value.(y := place.value.y / rhs);
  }

  method AddAssignVector2(place: Place<Point2>, v: Vector2)
    modifies place
    ensures place.value == old(place.value).AddVector(v)
  {
    place.value := place.value.(x := place.value.x + v.x);
    place.value := place.value.(y := place.value.y + v.y);
  }

  method SubAssignVector2(place: Place<Point2>, v: Vector2)
    modifies place
    ensures place.value == old(place.value).SubVector(v)
  {
    place.value := place.value.(x := place.value.x - v.x);
    place.value := place.value.(y := place.value.y - v.y);
  }

  method AddAssignSize2(place: Place<Point2>, s: Size2)
    modifies place
    ensures place.value == old(place.value).AddSize(s)
  {
    place.value := place.value.(x := place.value.x + s.x);
    place.value := place.value.(y := place.value.y + s.y);
  }

  method SubAssignSize2(place: Place<Point2>, s: Size2)
    modifies place
    ensures place.value == old(place.value).SubSize(s)
  {
    place.value := place.value.(x := place.value.x - s.x);
    place.value := place.value.(y := place.value.y - s.y);
  }

  method MulAssign3(place: Place<Point3>, rhs: real)
    modifies place
    ensures place.value == old(place.value).Mul(rhs)
  {
    place.value := place.value.(x := place.value.x * rhs);
    place.value := place.value.(y := place.value.y * rhs);
    place.value := place.value.(z := place.value.z * rhs);
  }

  method DivAssign3(place: Place<Point3>, rhs: real)
    requires rhs != 0.0
    modifies place
    ensures place.value == old(place.value).Div(rhs)
  {
    place.value := place.value.(x := place.value.x / rhs);
    place.value := place.value.(y := place.value.y / rhs);
    place.value := place.value.(z := place.value.z / rhs);
  }

  method AddAssignVector3(place: Place<Point3>, v: Vector3)
    modifies place
    ensures place.value == old(place.value).AddVector(v)
  {
    place.value := place.value.(x := place.value.x + v.x);
    place.value := place.value.(y := place.value.y + v.y);
    place.value := place.value.(z := place.value.z + v.z);
  }

  method SubAssignVector3(place: Place<Point3>, v: Vector3)
    modifies place
    ensures place.value == old(place.value).SubVector(v)
  {
    place.value := place.value.(x := place.value.x - v.x);
    place.value := place.value.(y := place.value.y - v.y);
    place.value := place.value.(z := place.value.z - v.z);
  }

  method AddAssignSize3(place: Place<Point3>, s: Size3)
    modifies place
    ensures place.value == old(place.value).AddSize(s)
  {
    place.value := place.value.(x := place.value.x + s.x);
    place.value := place.value.(y := place.value.y + s.y);
    place.value := place.value.(z := place.value.z + s.z);
  }

  method SubAssignSize3(place: Place<Point3>, s: Size3)
    modifies place
    ensures place.value == old(place.value).SubSize(s)
  {
    place.value := place.value.(x := place.value.x - s.x);
    place.value := place.value.(y := place.value.y - s.y);
    place.value := place.value.(z := place.value.z - s.z);
  }

  /** Writing a coordinate through `IndexMut`: only the coordinate of `axis` changes. */
  method IndexMut2(place: Place<Point2>, axis: Axis2, v: real)
    modifies place
    ensures place.value.Index(axis) == v
    ensures forall other: Axis2 :: other != axis ==> place.value.Index(other) == old(place.value).Index(other)
  {
    match axis
    case X => place.value := place.value.(x := v);
    case Y => place.value := place.value.(y := v);
  }

  method IndexMut3(place: Place<Point3>, axis: Axis3, v: real)
    modifies place
    ensures place.value.Index(axis) == v
    ensures forall other: Axis3 :: other != axis ==> place.value.Index(other) == old(place.value).Index(other)
  {
    match axis
    case X => place.value := place.value.(x := v);
    case Y => place.value := place.value.(y := v);
    case Z => place.value := place.value.(z := v);
  }
}
