/** Uniform scale factors of scale.rs, taking one space to another. */
module Scales {
  import opened Units
  import opened Vectors
  import opened Points
  import opened Sizes
  import opened Boxes

  datatype Scale = Scale(factor: real)
  {
    static function New(factor: real): Scale { Scale(factor) }

    function Get(): real { factor }

    /** `identity()`, which is `one()`. */
    static function Identity(): Scale { Scale(1.0) }

    function IsIdentity(): bool { factor == 1.0 }

    /** The reciprocal factor; a zero factor has no inverse over the reals. */
    function Inverse(): Scale
      requires factor != 0.0
    {
      Scale(1.0 / factor)
    }

    function TransformLength(length: Length): Length { Units.Length(length.value * factor) }

    function TransformPoint2(p: Point2): Point2 { Point2(p.x * factor, p.y * factor) }

    function TransformPoint3(p: Point3): Point3 { Point3(p.x * factor, p.y * factor, p.z * factor) }

    function TransformVector2(v: Vector2): Vector2 { Vector2(v.x * factor, v.y * factor) }

    function TransformVector3(v: Vector3): Vector3 { Vector3(v.x * factor, v.y * factor, v.z * factor) }

    /** Normals are divided by the factor, the inverse transpose of a uniform scale. */
    function TransformNormal2(n: Vector2): Vector2
      requires factor != 0.0
    {
      Vector2(n.x / factor, n.y / factor)
    }

    function TransformNormal3(n: Vector3): Vector3
      requires factor != 0.0
    {
      Vector3(n.x / factor, n.y / factor, n.z / factor)
    }

    /** Maps both corners; nothing reorders them. */
    function TransformBox2(b: Box2): Box2 { Box2(TransformPoint2(b.min), TransformPoint2(b.max)) }

    function TransformBox3(b: Box3): Box3 { Box3(TransformPoint3(b.min), TransformPoint3(b.max)) }

    function TransformSize2(s: Size2): Size2 { Size2(s.x * factor, s.y * factor) }

    function TransformSize3(s: Size3): Size3 { Size3(s.x * factor, s.y * factor, s.z * factor) }

    function Add(rhs: Scale): Scale { Scale(factor + rhs.factor) }

    function Sub(rhs: Scale): Scale { Scale(factor - rhs.factor) }

    /** `Scale<A, B> * Scale<B, C>`: first this scale, then `rhs`. */
    function Mul(rhs: Scale): Scale { Scale(factor * rhs.factor) }
  }

  /** `Length<Dst> / Length<Src>`: the scale that maps `rhs` to `lhs`. */
  function LengthRatio(lhs: Length, rhs: Length): Scale
    requires rhs.value != 0.0
  {
    Scale.New(lhs.value / rhs.value)
  }

  lemma NewGet(f: real, s: Scale)
    ensures Scale.New(f).Get() == f && Scale.New(s.Get()) == s
  {
  }

  /** The identity has factor one, `is_identity` means exactly factor one, and it leaves everything unchanged. */
  lemma IdentityLaws(s: Scale, p: Point3, v: Vector3, n: Vector3, l: Length, sz: Size3)
    ensures s.IsIdentity() <==> s == Scale.Identity()
    ensures Scale.Identity().TransformPoint3(p) == p && Scale.Identity().TransformVector3(v) == v
    ensures Scale.Identity().TransformNormal3(n) == n
    ensures Scale.Identity().TransformLength(l) == l && Scale.Identity().TransformSize3(sz) == sz
    ensures Scale.Identity().Inverse() == Scale.Identity()
  {
  }

  /** Inverting twice gives the scale back, and a scale composed with its inverse is the identity. */
  lemma InverseInvolution(s: Scale)
    requires s.factor != 0.0
    ensures s.Inverse().factor != 0.0 && s.Inverse().Inverse() == s
    ensures s.Mul(s.Inverse()) == Scale.Identity() && s.Inverse().Mul(s) == Scale.Identity()
  {
    var f := s.factor;
    assert f * (1.0 / f) == 1.0;
  }

  /** The inverse undoes the transform of points. */
  lemma InversePoints(s: Scale, p2: Point2, p3: Point3)
    requires s.factor != 0.0
    ensures s.Inverse().TransformPoint2(s.TransformPoint2(p2)) == p2
    ensures s.Inverse().TransformPoint3(s.TransformPoint3(p3)) == p3
  {
    InversePoint2(s, p2);
    InversePoint3(s, p3);
  }

  lemma InversePoint2(s: Scale, p: Point2)
    requires s.factor != 0.0
    ensures s.Inverse().TransformPoint2(s.TransformPoint2(p)) == p
  {
    Cancel(p.x, s.factor);
    Cancel(p.y, s.factor);
  }

  lemma InversePoint3(s: Scale, p: Point3)
    requires s.factor != 0.0
    ensures s.Inverse().TransformPoint3(s.TransformPoint3(p)) == p
  {
    Cancel(p.x, s.factor);
    Cancel(p.y, s.factor);
    Cancel(p.z, s.factor);
  }

  /** The inverse undoes the transform of vectors and of normals. */
  lemma InverseVectors(s: Scale, v: Vector3, n: Vector3)
    requires s.factor != 0.0
    ensures s.Inverse().TransformVector3(s.TransformVector3(v)) == v
    ensures s.Inverse().TransformNormal3(s.TransformNormal3(n)) == n
  {
    InverseVector3(s, v);
    InverseNormal3(s, n);
  }

  lemma InverseVector3(s: Scale, v: Vector3)
    requires s.factor != 0.0
    ensures s.Inverse().TransformVector3(s.TransformVector3(v)) == v
  {
    Cancel(v.x, s.factor);
    Cancel(v.y, s.factor);
    Cancel(v.z, s.factor);
  }

  lemma InverseNormal3(s: Scale, n: Vector3)
    requires s.factor != 0.0
    ensures s.Inverse().TransformNormal3(s.TransformNormal3(n)) == n
  {
    Cancel(n.x, s.factor);
    Cancel(n.y, s.factor);
    Cancel(n.z, s.factor);
  }

  /** The inverse undoes the transform of lengths and sizes. */
  lemma InverseMeasures(s: Scale, l: Length, sz: Size3)
    requires s.factor != 0.0
    ensures s.Inverse().TransformLength(s.TransformLength(l)) == l
    ensures s.Inverse().TransformSize3(s.TransformSize3(sz)) == sz
  {
    Cancel(l.value, s.factor);
    InverseSize3(s, sz);
  }

  lemma InverseSize3(s: Scale, sz: Size3)
    requires s.factor != 0.0
    ensures s.Inverse().TransformSize3(s.TransformSize3(sz)) == sz
  {
    Cancel(sz.x, s.factor);
    Cancel(sz.y, s.factor);
    Cancel(sz.z, s.factor);
  }

  /** `a * b` applies `a` first, then `b`, to points. */
  lemma MulComposesPoint(a: Scale, b: Scale, p: Point3)
    ensures a.Mul(b).TransformPoint3(p) == b.TransformPoint3(a.TransformPoint3(p))
  {
    MulAssoc(p.x, a.factor, b.factor);
    MulAssoc(p.y, a.factor, b.factor);
    MulAssoc(p.z, a.factor, b.factor);
  }

  /** `a * b` applies `a` first, then `b`, to boxes, corner by corner. */
  lemma MulComposesBox(a: Scale, b: Scale, bx: Box3)
    ensures a.Mul(b).TransformBox3(bx) == b.TransformBox3(a.TransformBox3(bx))
  {
    MulComposesPoint(a, b, bx.min);
    MulComposesPoint(a, b, bx.max);
  }

  /** `a * b` applies `a` first, then `b`, to vectors, lengths and sizes. */
  lemma MulComposesMeasures(a: Scale, b: Scale, v: Vector3, l: Length, sz: Size3)
    ensures a.Mul(b).TransformVector3(v) == b.TransformVector3(a.TransformVector3(v))
    ensures a.Mul(b).TransformLength(l) == b.TransformLength(a.TransformLength(l))
    ensures a.Mul(b).TransformSize3(sz) == b.TransformSize3(a.TransformSize3(sz))
  {
    MulComposesVector(a, b, v);
    MulComposesLength(a, b, l);
    MulComposesSize(a, b, sz);
  }

  lemma MulComposesLength(a: Scale, b: Scale, l: Length)
    ensures a.Mul(b).TransformLength(l) == b.TransformLength(a.TransformLength(l))
  {
    MulAssoc(l.value, a.factor, b.factor);
    assert a.Mul(b).TransformLength(l).value == a.TransformLength(l).value * b.factor;
  }

  lemma MulComposesVector(a: Scale, b: Scale, v: Vector3)
    ensures a.Mul(b).TransformVector3(v) == b.TransformVector3(a.TransformVector3(v))
  {
    MulAssoc(v.x, a.factor, b.factor);
    MulAssoc(v.y, a.factor, b.factor);
    MulAssoc(v.z, a.factor, b.factor);
  }

  lemma MulComposesSize(a: Scale, b: Scale, sz: Size3)
    ensures a.Mul(b).TransformSize3(sz) == b.TransformSize3(a.TransformSize3(sz))
  {
    MulAssoc(sz.x, a.factor, b.factor);
    MulAssoc(sz.y, a.factor, b.factor);
    MulAssoc(sz.z, a.factor, b.factor);
  }

  lemma MulAssoc(x: real, f: real, g: real)
    ensures x * (f * g) == x * f * g
  {
  }

  lemma Cancel(x: real, f: real)
    requires f != 0.0
    ensures x * f * (1.0 / f) == x && x / f / (1.0 / f) == x
  {
    assert f * (1.0 / f) == 1.0;
    assert x * f * (1.0 / f) == x * (f * (1.0 / f));
  }

  /** Every transform multiplies each component by the factor, and normals divide it. */
  lemma Componentwise(s: Scale, v: Vector2, n: Vector2, p: Point2, sz: Size2)
    ensures s.TransformVector2(v) == v.Mul(s.factor)
    ensures s.TransformPoint2(p) == p.Mul(s.factor)
    ensures s.TransformSize2(sz) == sz.Mul(s.factor)
    ensures s.factor != 0.0 ==> s.TransformNormal2(n) == n.Div(s.factor)
  {
  }

  /** Dividing normals by the factor keeps their dot product with transformed vectors. */
  lemma NormalDotPreserved(s: Scale, n: Vector3, v: Vector3)
    requires s.factor != 0.0
    ensures s.TransformNormal3(n).Dot(s.TransformVector3(v)) == n.Dot(v)
  {
    var f := s.factor;
    assert (n.x / f) * (v.x * f) == n.x * v.x;
    assert (n.y / f) * (v.y * f) == n.y * v.y;
    assert (n.z / f) * (v.z * f) == n.z * v.z;
  }

  /**
   * Boxes map corner by corner: a positive factor keeps emptiness, while
   * a negative factor turns a non-empty box into one with `min > max`.
   */
  lemma BoxLaws(s: Scale, b: Box2)
    ensures s.factor > 0.0 ==> s.TransformBox2(b).IsEmpty() == b.IsEmpty()
    ensures s.factor < 0.0 && !b.IsEmpty() ==>
      s.TransformBox2(b).min.x > s.TransformBox2(b).max.x && s.TransformBox2(b).IsEmpty()
  {
    var f := s.factor;
    if f > 0.0 {
      assert b.max.x > b.min.x <==> b.max.x * f > b.min.x * f;
      assert b.max.y > b.min.y <==> b.max.y * f > b.min.y * f;
    }
    if f < 0.0 && !b.IsEmpty() {
      assert b.max.x * f < b.min.x * f;
    }
  }

  lemma AddSub(a: Scale, b: Scale)
    ensures a.Add(b).Sub(b) == a
    ensures a.Mul(Scale.Identity()) == a && Scale.Identity().Mul(a) == a
  {
  }

  /** The ratio of two lengths maps the divisor back onto the dividend. */
  lemma LengthRatioLaw(lhs: Length, rhs: Length)
    requires rhs.value != 0.0
    ensures LengthRatio(lhs, rhs).TransformLength(rhs) == lhs
  {
  }
}
