/**
 * The matrix transforms of transform.rs. A transform keeps its forward matrix
 * `mat` together with a cached inverse `matInv`; points are rows multiplied on
 * the left, so the translation sits in the last row. The invariant every
 * builder establishes and every operation keeps is `Valid()`: `matInv` is the
 * two-sided inverse of `mat`.
 */
module Transforms {
  import Num
  import opened Wrappers
  import opened Matrices
  import opened Vectors
  import opened Points
  import opened Boxes
  import opened Homogen
  import opened Scales
  import opened Translations
  import opened Rotations
  import opened Axes

  // ---------------------------------------------------------------------
  // Transform2

  datatype Transform2 = Transform2(mat: Mat3x2, matInv: Mat3x2)
  {
    static function NewRaw(mat: Mat3x2, matInv: Mat3x2): Transform2 { Transform2(mat, matInv) }

    /** The inherent `identity()`: the identity matrix, which is its own inverse. */
    static function Identity(): Transform2 { NewRaw(Identity3x2(), Identity3x2()) }

    function IsIdentity(): bool { mat == Identity().mat }

    /** The cached inverse really is the inverse of the forward matrix. */
    predicate Valid() { Inverts3x2(mat, matInv) }

    /** `try_new`: `None` for a singular matrix, else the pair with the explicit 2D inverse. */
    static function TryNew(mat: Mat3x2): Option<Transform2>
    {
      var det := mat.m11 * mat.m22 - mat.m21 * mat.m12;
      if det == 0.0 then None
      else
        var invDet := 1.0 / det;
        Some(NewRaw(mat, Mat3x2(
          invDet * mat.m22, invDet * (0.0 - mat.m12),
          invDet * (0.0 - mat.m21), invDet * mat.m11,
          invDet * (mat.m21 * mat.m32 - mat.m22 * mat.m31), invDet * (mat.m12 * mat.m31 - mat.m11 * mat.m32))))
    }

    /** `new`, whose `expect` turns a singular matrix into a precondition. */
    static function New(mat: Mat3x2): Transform2
      requires mat.m11 * mat.m22 - mat.m21 * mat.m12 != 0.0
    {
      TryNew(mat).value
    }

    static function Translation(v: Vector2): Transform2
    {
      NewRaw(Mat3x2(1.0, 0.0, 0.0, 1.0, v.x, v.y), Mat3x2(1.0, 0.0, 0.0, 1.0, 0.0 - v.x, 0.0 - v.y))
    }

    /** `rotation(theta)`, given the cosine `c` and sine `s` of `theta`. */
    static function Rotation(c: real, s: real): Transform2
    {
      NewRaw(Mat3x2(c, s, 0.0 - s, c, 0.0, 0.0), Mat3x2(c, 0.0 - s, s, c, 0.0, 0.0))
    }

    /** `scale(x, y)`: the inverse stores the reciprocals, so both factors must be nonzero. */
    static function Scale(x: Scales.Scale, y: Scales.Scale): Transform2
      requires x.Get() != 0.0 && y.Get() != 0.0
    {
      NewRaw(Mat3x2(x.Get(), 0.0, 0.0, y.Get(), 0.0, 0.0), Mat3x2(1.0 / x.Get(), 0.0, 0.0, 1.0 / y.Get(), 0.0, 0.0))
    }

    function Determinant(): real { mat.m11 * mat.m22 - mat.m12 * mat.m21 }

    function IsInvertible(): bool { Determinant() != 0.0 }

    /** `Transformation::identity`, the translation by zero. */
    static function TransformationIdentity(): Transform2 { Translation(Vector2.Zero()) }

    /** `Transformation::inverse` swaps the pair. */
    function Inverse(): Transform2 { NewRaw(matInv, mat) }

    /** `self * rhs`: `self` acts first; the inverse is the product of the inverses in reverse order. */
    function Mul(rhs: Transform2): Transform2
    {
      NewRaw(MatMul3x2(mat, rhs.mat), MatMul3x2(rhs.matInv, matInv))
    }

    /** `PartialEq` compares the forward matrices only. */
    predicate Eq(other: Transform2) { mat == other.mat }

    /** `approx_eq_eps` compares the forward matrices row by row. */
    function ApproxEqEps(other: Transform2, eps: real): bool
    {
      Num.ApproxEqEps(RowApproxEqEps, Rows3x2(mat), Rows3x2(other.mat), eps)
    }

    /** The point as a row `(x, y, 1)` times the matrix: `x * m11 + y * m21 + m31`, and so on. */
    function TransformPoint(p: Point2): Point2
    {
      Point2(Dot2(p.x, p.y, mat.m11, mat.m21) + mat.m31, Dot2(p.x, p.y, mat.m12, mat.m22) + mat.m32)
    }

    /** Vectors see the linear part only. */
    function TransformVector(v: Vector2): Vector2
    {
      Vector2(Dot2(v.x, v.y, mat.m11, mat.m21), Dot2(v.x, v.y, mat.m12, mat.m22))
    }

    /** Normals go through the transpose of the inverse's linear part. */
    function TransformNormal(n: Vector2): Vector2
    {
      Vector2(Dot2(n.x, n.y, matInv.m11, matInv.m12), Dot2(n.x, n.y, matInv.m21, matInv.m22))
    }

    /** The bounds of all four transformed corners. */
    function TransformBox(b: Box2): Box2
    {
      Bounds2([TransformPoint(b.min), TransformPoint(b.max),
               TransformPoint(Point2(b.max.x, b.min.y)), TransformPoint(Point2(b.min.x, b.max.y))])
    }

    static function FromTranslation(t: Translation2): Transform2 { Translation(t.ToVector()) }

    static function FromScale(s: Scales.Scale): Transform2
      requires s.Get() != 0.0
    {
      Scale(s, s)
    }
  }

  /** The rows of a 3x2 matrix, as the nested arrays `approx_eq_eps` walks. */
  function Rows3x2(m: Mat3x2): seq<seq<real>> { [[m.m11, m.m12], [m.m21, m.m22], [m.m31, m.m32]] }

  /** The array `approx_eq_eps` on one row of reals. */
  function RowApproxEqEps(a: seq<real>, b: seq<real>, eps: real): bool
  {
    |a| == |b| && Num.ApproxEqEps(Num.RealApproxEqEps, a, b, eps)
  }

  /** The four corners of a 2D box, in the order the box transform visits them. */
  function Corners2(b: Box2): seq<Point2>
  {
    [b.min, b.max, Point2(b.max.x, b.min.y), Point2(b.min.x, b.max.y)]
  }

  // Transform2 laws.

  /**
   * `try_new` fails exactly for a zero determinant, agreeing with `is_invertible`;
   * otherwise it keeps the matrix and its cached inverse inverts it on both sides.
   */
  lemma TryNew2Correct(mat: Mat3x2)
    ensures Transform2.TryNew(mat).None? <==> !Transform2.NewRaw(mat, mat).IsInvertible()
    ensures Transform2.TryNew(mat).Some? ==> Transform2.TryNew(mat).value.mat == mat && Transform2.TryNew(mat).value.Valid()
  {
    var det := mat.m11 * mat.m22 - mat.m21 * mat.m12;
    assert det == Transform2.NewRaw(mat, mat).Determinant();
    if det != 0.0 {
      var d := 1.0 / det;
      var inv := Transform2.TryNew(mat).value.matInv;
      TryNew2Inverse(mat, d, inv);
      Inverse2Right(mat, d, inv);
      Inverse2Left(mat, d, inv);
    }
  }

  lemma TryNew2Inverse(mat: Mat3x2, d: real, inv: Mat3x2)
    requires mat.m11 * mat.m22 - mat.m21 * mat.m12 != 0.0
    requires d == 1.0 / (mat.m11 * mat.m22 - mat.m21 * mat.m12) && inv == Transform2.TryNew(mat).value.matInv
    ensures d * (mat.m11 * mat.m22 - mat.m21 * mat.m12) == 1.0
    ensures inv.m11 == d * mat.m22 && inv.m12 == d * (0.0 - mat.m12)
    ensures inv.m21 == d * (0.0 - mat.m21) && inv.m22 == d * mat.m11
    ensures inv.m31 == d * (mat.m21 * mat.m32 - mat.m22 * mat.m31) && inv.m32 == d * (mat.m12 * mat.m31 - mat.m11 * mat.m32)
  {
  }

  lemma Inverse2Right(m: Mat3x2, d: real, inv: Mat3x2)
    requires d * (m.m11 * m.m22 - m.m21 * m.m12) == 1.0
    requires inv.m11 == d * m.m22 && inv.m12 == d * (0.0 - m.m12)
    requires inv.m21 == d * (0.0 - m.m21) && inv.m22 == d * m.m11
    requires inv.m31 == d * (m.m21 * m.m32 - m.m22 * m.m31) && inv.m32 == d * (m.m12 * m.m31 - m.m11 * m.m32)
    ensures MatMul3x2(m, inv) == Identity3x2()
  {
    CofactorOne(m.m11, m.m12, m.m22, m.m21, d);
    CofactorZero(m.m11, m.m12, d);
    CofactorZeroSwapped(m.m21, m.m22, d);
    CofactorOneSwapped(m.m21, m.m22, m.m12, m.m11, d);
    CofactorRow(m.m31, m.m32, m.m22, m.m21, d);
    CofactorRowSwapped(m.m31, m.m32, m.m12, m.m11, d);
  }

  lemma Inverse2Left(m: Mat3x2, d: real, inv: Mat3x2)
    requires d * (m.m11 * m.m22 - m.m21 * m.m12) == 1.0
    requires inv.m11 == d * m.m22 && inv.m12 == d * (0.0 - m.m12)
    requires inv.m21 == d * (0.0 - m.m21) && inv.m22 == d * m.m11
    requires inv.m31 == d * (m.m21 * m.m32 - m.m22 * m.m31) && inv.m32 == d * (m.m12 * m.m31 - m.m11 * m.m32)
    ensures MatMul3x2(inv, m) == Identity3x2()
  {
  }

  // Entries of `m * inv`, with `d` the reciprocal of the determinant.

  lemma CofactorOne(a: real, b: real, c: real, e: real, d: real)
    requires d * (a * c - e * b) == 1.0
    ensures Dot2(a, b, d * c, d * (0.0 - e)) == 1.0
  {
  }

  lemma CofactorOneSwapped(a: real, b: real, c: real, e: real, d: real)
    requires d * (e * b - a * c) == 1.0
    ensures Dot2(a, b, d * (0.0 - c), d * e) == 1.0
  {
  }

  lemma CofactorZero(a: real, b: real, d: real)
    ensures Dot2(a, b, d * (0.0 - b), d * a) == 0.0
  {
  }

  lemma CofactorZeroSwapped(a: real, b: real, d: real)
    ensures Dot2(a, b, d * b, d * (0.0 - a)) == 0.0
  {
  }

  lemma CofactorRow(a: real, b: real, c: real, e: real, d: real)
    ensures Dot2(a, b, d * c, d * (0.0 - e)) + d * (e * b - c * a) == 0.0
  {
  }

  lemma CofactorRowSwapped(a: real, b: real, c: real, e: real, d: real)
    ensures Dot2(a, b, d * (0.0 - c), d * e) + d * (c * a - e * b) == 0.0
  {
  }

  /** The builders establish the invariant, and the trait identity is the inherent one. */
  lemma Builders2Valid()
    ensures Transform2.Identity().Valid() && Transform2.Identity().IsIdentity()
    ensures Transform2.TransformationIdentity() == Transform2.Identity()
  {
  }

  lemma Translation2Valid(v: Vector2)
    ensures Transform2.Translation(v).Valid()
  {
    TranslationInverts2(v.x, v.y);
  }

  lemma TranslationInverts2(x: real, y: real)
    ensures Inverts3x2(Mat3x2(1.0, 0.0, 0.0, 1.0, x, y), Mat3x2(1.0, 0.0, 0.0, 1.0, 0.0 - x, 0.0 - y))
  {
  }

  /** `scale` with nonzero factors stores a true inverse. */
  lemma Scale2Valid(x: Scales.Scale, y: Scales.Scale)
    requires x.Get() != 0.0 && y.Get() != 0.0
    ensures Transform2.Scale(x, y).Valid()
  {
    DiagonalInverts2(x.Get(), y.Get(), Transform2.Scale(x, y));
  }

  lemma DiagonalInverts2(x: real, y: real, t: Transform2)
    requires x != 0.0 && y != 0.0
    requires t.mat == Mat3x2(x, 0.0, 0.0, y, 0.0, 0.0) && t.matInv == Mat3x2(1.0 / x, 0.0, 0.0, 1.0 / y, 0.0, 0.0)
    ensures t.Valid()
  {
    assert x * (1.0 / x) == 1.0 && (1.0 / x) * x == 1.0;
    assert y * (1.0 / y) == 1.0 && (1.0 / y) * y == 1.0;
  }

  /** `rotation(theta)` is valid for a cosine and sine on the unit circle, and turns (1, 0) to (c, s). */
  lemma Rotation2Laws(c: real, s: real)
    ensures c * c + s * s == 1.0 ==> Transform2.Rotation(c, s).Valid()
    ensures Transform2.Rotation(c, s).TransformPoint(Point2(1.0, 0.0)) == Point2(c, s)
    ensures Transform2.Rotation(c, s).TransformPoint(Point2(0.0, 1.0)) == Point2(-s, c)
  {
  }

  /** `A * B` applies `A` first, to points and to vectors alike. */
  lemma Mul2Composes(a: Transform2, b: Transform2, p: Point2, v: Vector2)
    ensures a.Mul(b).TransformPoint(p) == b.TransformPoint(a.TransformPoint(p))
    ensures a.Mul(b).TransformVector(v) == b.TransformVector(a.TransformVector(v))
  {
    Mul2Point(a, b, p);
    Mul2Vector(a, b, v);
  }

  lemma Mul2Point(a: Transform2, b: Transform2, p: Point2)
    ensures a.Mul(b).TransformPoint(p) == b.TransformPoint(a.TransformPoint(p))
  {
    AssocAffine(p.x, p.y, a.mat.m11, a.mat.m12, a.mat.m21, a.mat.m22, a.mat.m31, a.mat.m32, b.mat.m11, b.mat.m21, b.mat.m31);
    AssocAffine(p.x, p.y, a.mat.m11, a.mat.m12, a.mat.m21, a.mat.m22, a.mat.m31, a.mat.m32, b.mat.m12, b.mat.m22, b.mat.m32);
  }

  lemma Mul2Vector(a: Transform2, b: Transform2, v: Vector2)
    ensures a.Mul(b).TransformVector(v) == b.TransformVector(a.TransformVector(v))
  {
    Assoc2(v.x, v.y, a.mat.m11, a.mat.m12, a.mat.m21, a.mat.m22, b.mat.m11, b.mat.m21);
    Assoc2(v.x, v.y, a.mat.m11, a.mat.m12, a.mat.m21, a.mat.m22, b.mat.m12, b.mat.m22);
  }

  /** Products keep the invariant, and `*` is associative with the identity neutral on both sides. */
  lemma Mul2Laws(a: Transform2, b: Transform2, c: Transform2)
    ensures a.Valid() && b.Valid() ==> a.Mul(b).Valid()
    ensures a.Mul(b).Mul(c) == a.Mul(b.Mul(c))
    ensures Transform2.Identity().Mul(a) == a && a.Mul(Transform2.Identity()) == a
  {
    if a.Valid() && b.Valid() {
      Inverts3x2Compose(a.mat, a.matInv, b.mat, b.matInv);
    }
    MatMul3x2Assoc(a.mat, b.mat, c.mat);
    MatMul3x2Assoc(c.matInv, b.matInv, a.matInv);
    MatMul3x2Identity(a.mat);
    MatMul3x2Identity(a.matInv);
  }

  /**
   * `inverse` swaps the pair: it is an involution, keeps the invariant, and
   * for a valid transform undoes it on points on either side.
   */
  lemma Inverse2Laws(t: Transform2, p: Point2)
    ensures t.Inverse().Inverse() == t && t.Inverse().mat == t.matInv && t.Inverse().matInv == t.mat
    ensures t.Valid() ==> t.Inverse().Valid()
    ensures t.Valid() ==> t.Inverse().TransformPoint(t.TransformPoint(p)) == p
    ensures t.Valid() ==> t.TransformPoint(t.Inverse().TransformPoint(p)) == p
  {
    if t.Valid() {
      Mul2Composes(t, t.Inverse(), p, Vector2.Zero());
      Mul2Composes(t.Inverse(), t, p, Vector2.Zero());
    }
  }

  /** Equality looks at the forward matrices only, whatever inverse is cached. */
  lemma Eq2Laws(a: Transform2, b: Transform2, inv: Mat3x2, p: Point2, v: Vector2)
    ensures Transform2.NewRaw(a.mat, inv).Eq(a)
    ensures a.Eq(b) ==> b.Eq(a) && a.TransformPoint(p) == b.TransformPoint(p) && a.TransformVector(v) == b.TransformVector(v)
    ensures a.IsIdentity() <==> a.Eq(Transform2.Identity())
  {
  }

  /**
   * A translation adds its vector to points and leaves vectors and normals
   * alone; two translations compose to the translation by the sum, and the
   * inverse is the translation by the negation.
   */
  lemma Translation2Laws(v: Vector2, w: Vector2, p: Point2, u: Vector2, t: Translation2)
    ensures Transform2.Translation(v).TransformPoint(p) == p.AddVector(v)
    ensures Transform2.Translation(v).TransformVector(u) == u && Transform2.Translation(v).TransformNormal(u) == u
    ensures Transform2.Translation(v).Mul(Transform2.Translation(w)) == Transform2.Translation(v.Add(w))
    ensures Transform2.Translation(v).Inverse() == Transform2.Translation(v.Neg())
    ensures Transform2.FromTranslation(t).TransformPoint(p) == t.TransformPoint(p)
  {
  }

  /**
   * A scale multiplies point and vector coordinates by its factors and
   * divides normals by them; from a uniform `Scale` it agrees with that scale.
   */
  lemma Scale2Laws(x: Scales.Scale, y: Scales.Scale, p: Point2, v: Vector2)
    requires x.Get() != 0.0 && y.Get() != 0.0
    ensures Transform2.Scale(x, y).TransformPoint(p) == Point2(p.x * x.Get(), p.y * y.Get())
    ensures Transform2.Scale(x, y).TransformVector(v) == Vector2(v.x * x.Get(), v.y * y.Get())
    ensures Transform2.Scale(x, y).TransformNormal(v) == Vector2(v.x / x.Get(), v.y / y.Get())
    ensures Transform2.FromScale(x).TransformPoint(p) == x.TransformPoint2(p)
    ensures Transform2.FromScale(x).TransformVector(v) == x.TransformVector2(v)
    ensures Transform2.FromScale(x).TransformNormal(v) == x.TransformNormal2(v)
  {
  }

  /**
   * Normals go through the inverse transpose, so for a valid transform the
   * dot product of a normal with any vector is unchanged.
   */
  lemma Normal2Preserved(t: Transform2, n: Vector2, v: Vector2)
    requires t.Valid()
    ensures t.TransformNormal(n).Dot(t.TransformVector(v)) == n.Dot(v)
  {
    var m, i := t.mat, t.matInv;
    assert Dot2(m.m11, m.m12, i.m11, i.m21) == 1.0 && Dot2(m.m11, m.m12, i.m12, i.m22) == 0.0;
    assert Dot2(m.m21, m.m22, i.m11, i.m21) == 0.0 && Dot2(m.m21, m.m22, i.m12, i.m22) == 1.0;
    NormalDot2(v.x, v.y, n.x, n.y, m.m11, m.m12, m.m21, m.m22, i.m11, i.m12, i.m21, i.m22);
  }

  lemma NormalDot2(v1: real, v2: real, n1: real, n2: real,
                   m11: real, m12: real, m21: real, m22: real, i11: real, i12: real, i21: real, i22: real)
    requires Dot2(m11, m12, i11, i21) == 1.0 && Dot2(m11, m12, i12, i22) == 0.0
    requires Dot2(m21, m22, i11, i21) == 0.0 && Dot2(m21, m22, i12, i22) == 1.0
    ensures Dot2(n1, n2, i11, i12) * Dot2(v1, v2, m11, m21) + Dot2(n1, n2, i21, i22) * Dot2(v1, v2, m12, m22)
         == n1 * v1 + n2 * v2
  {
    assert Dot2(n1, n2, i11, i12) * Dot2(v1, v2, m11, m21) + Dot2(n1, n2, i21, i22) * Dot2(v1, v2, m12, m22)
        == v1 * (n1 * Dot2(m11, m12, i11, i21) + n2 * Dot2(m11, m12, i12, i22))
         + v2 * (n1 * Dot2(m21, m22, i11, i21) + n2 * Dot2(m21, m22, i12, i22));
  }

  /**
   * The box transform fits all four transformed corners, not only the images
   * of `min` and `max`, and each bound is attained by one of them.
   */
  lemma Box2Fits(t: Transform2, b: Box2)
    ensures forall i :: 0 <= i < 4 ==>
      t.TransformBox(b).min.Le(t.TransformPoint(Corners2(b)[i])) && t.TransformPoint(Corners2(b)[i]).Le(t.TransformBox(b).max)
    ensures forall a: Axis2 ::
      (exists i :: 0 <= i < 4 && t.TransformBox(b).min.Index(a) == t.TransformPoint(Corners2(b)[i]).Index(a))
      && (exists i :: 0 <= i < 4 && t.TransformBox(b).max.Index(a) == t.TransformPoint(Corners2(b)[i]).Index(a))
  {
    var ps := [t.TransformPoint(b.min), t.TransformPoint(b.max),
               t.TransformPoint(Point2(b.max.x, b.min.y)), t.TransformPoint(Point2(b.min.x, b.max.y))];
    assert forall i :: 0 <= i < 4 ==> ps[i] == t.TransformPoint(Corners2(b)[i]);
    BoundsLaws2(ps);
    assert t.TransformBox(b) == Bounds2(ps);
  }

  lemma RowApprox2(a1: real, a2: real, b1: real, b2: real, eps: real)
    ensures RowApproxEqEps([a1, a2], [b1, b2], eps) <==> Num.RealApproxEqEps(a1, b1, eps) && Num.RealApproxEqEps(a2, b2, eps)
  {
    Num.ApproxEqEpsAll(Num.RealApproxEqEps, [a1, a2], [b1, b2], eps);
  }

  /** `approx_eq_eps` holds exactly when every entry of the forward matrices is within `eps`. */
  lemma ApproxEq2Entries(a: Transform2, b: Transform2, eps: real)
    ensures a.ApproxEqEps(b, eps) <==>
      Num.RealApproxEqEps(a.mat.m11, b.mat.m11, eps) && Num.RealApproxEqEps(a.mat.m12, b.mat.m12, eps)
      && Num.RealApproxEqEps(a.mat.m21, b.mat.m21, eps) && Num.RealApproxEqEps(a.mat.m22, b.mat.m22, eps)
      && Num.RealApproxEqEps(a.mat.m31, b.mat.m31, eps) && Num.RealApproxEqEps(a.mat.m32, b.mat.m32, eps)
  {
    var ra, rb := Rows3x2(a.mat), Rows3x2(b.mat);
    Num.ApproxEqEpsAll(RowApproxEqEps, ra, rb, eps);
    RowApprox2(a.mat.m11, a.mat.m12, b.mat.m11, b.mat.m12, eps);
    RowApprox2(a.mat.m21, a.mat.m22, b.mat.m21, b.mat.m22, eps);
    RowApprox2(a.mat.m31, a.mat.m32, b.mat.m31, b.mat.m32, eps);
    assert ra[0] == [a.mat.m11, a.mat.m12] && rb[0] == [b.mat.m11, b.mat.m12];
    assert ra[1] == [a.mat.m21, a.mat.m22] && rb[1] == [b.mat.m21, b.mat.m22];
    assert ra[2] == [a.mat.m31, a.mat.m32] && rb[2] == [b.mat.m31, b.mat.m32];
  }

  // ---------------------------------------------------------------------
  // Transform3

  /** A row times a column of three entries: the linear part acting on a direction. */
  function Dot3(a1: real, a2: real, a3: real, b1: real, b2: real, b3: real): real { a1 * b1 + a2 * b2 + a3 * b3 }

  /**
   * The matrix `rotation(axis, theta)` builds from the axis `(x, y, z)` and
   * the sine and cosine of half the angle, with `two = 1 + 1`, `ss = sin * sin`
   * and `sc = sin * cos` written out.
   */
  function AxisAngleMatrix(x: real, y: real, z: real, sin: real, cos: real): Mat4
  {
    Mat4(
      1.0 - (1.0 + 1.0) * (y * y + z * z) * (sin * sin),
      (1.0 + 1.0) * (x * y * (sin * sin) + z * (sin * cos)),
      (1.0 + 1.0) * (x * z * (sin * sin) - y * (sin * cos)),
      0.0,
      (1.0 + 1.0) * (x * y * (sin * sin) - z * (sin * cos)),
      1.0 - (1.0 + 1.0) * (x * x + z * z) * (sin * sin),
      (1.0 + 1.0) * (y * z * (sin * sin) + x * (sin * cos)),
      0.0,
      (1.0 + 1.0) * (x * z * (sin * sin) + y * (sin * cos)),
      (1.0 + 1.0) * (y * z * (sin * sin) - x * (sin * cos)),
      1.0 - (1.0 + 1.0) * (x * x + y * y) * (sin * sin),
      0.0,
      0.0, 0.0, 0.0, 1.0)
  }

  /**
   * The matrix `From<Rotation3>` builds from the quaternion `a + i + j + k`:
   * the doubled vector part `(i + i, j + j, k + k)` times each part gives the
   * products `ii`, `ij`, `ik`, `jj`, `jk`, `kk`, `ai`, `aj`, `ak` of the linear
   * block, written out here.
   */
  function QuaternionMatrix(a: real, i: real, j: real, k: real): Mat4
  {
    Mat4(
      1.0 - ((j + j) * j + k * (k + k)), (j + j) * i + (k + k) * a, (k + k) * i - (j + j) * a, 0.0,
      (j + j) * i - (k + k) * a, 1.0 - ((i + i) * i + k * (k + k)), (k + k) * j + (i + i) * a, 0.0,
      (k + k) * i + (j + j) * a, (k + k) * j - (i + i) * a, 1.0 - ((i + i) * i + (j + j) * j), 0.0,
      0.0, 0.0, 0.0, 1.0)
  }

  /** The homogeneous row `h` times the matrix `m`. */
  function RowTimes(h: HomogeneousVector, m: Mat4): HomogeneousVector
  {
    HomogeneousVector(
      Dot4(h.x, h.y, h.z, h.w, m.m11, m.m21, m.m31, m.m41), Dot4(h.x, h.y, h.z, h.w, m.m12, m.m22, m.m32, m.m42),
      Dot4(h.x, h.y, h.z, h.w, m.m13, m.m23, m.m33, m.m43), Dot4(h.x, h.y, h.z, h.w, m.m14, m.m24, m.m34, m.m44))
  }

  datatype Transform3 = Transform3(mat: Mat4, matInv: Mat4)
  {
    static function NewRaw(mat: Mat4, matInv: Mat4): Transform3 { Transform3(mat, matInv) }

    static function Identity(): Transform3 { NewRaw(Identity4(), Identity4()) }

    function IsIdentity(): bool { mat == Identity().mat }

    /** The cached inverse really is the inverse of the forward matrix. */
    predicate Valid() { Inverts4(mat, matInv) }

    /** `try_new`: the cofactor inverse, `None` for a zero determinant. */
    static function TryNew(mat: Mat4): Option<Transform3>
    {
      match MatInverse4(mat)
      case None => None
      case Some(inv) => Some(NewRaw(mat, inv))
    }

    /** `new`, whose `expect` turns a singular matrix into a precondition. */
    static function New(mat: Mat4): Transform3
      requires mat.Determinant() != 0.0
    {
      MatInverse4Correct(mat);
      TryNew(mat).value
    }

    static function Translation(v: Vector3): Transform3
    {
      NewRaw(Mat4(1.0, 0.0, 0.0, 0.0, 0.0, 1.0, 0.0, 0.0, 0.0, 0.0, 1.0, 0.0, v.x, v.y, v.z, 1.0),
             Mat4(1.0, 0.0, 0.0, 0.0, 0.0, 1.0, 0.0, 0.0, 0.0, 0.0, 1.0, 0.0, 0.0 - v.x, 0.0 - v.y, 0.0 - v.z, 1.0))
    }

    /**
     * `rotation(axis, theta)`, given the sine `sin` and cosine `cos` of half
     * the angle; the inverse is the transpose.
     */
    static function Rotation(axis: Vector3, sin: real, cos: real): Transform3
    {
      NewRaw(AxisAngleMatrix(axis.x, axis.y, axis.z, sin, cos), AxisAngleMatrix(axis.x, axis.y, axis.z, sin, cos).Transpose())
    }

    /** `scale(x, y, z)`: the inverse stores the reciprocals, so the factors must be nonzero. */
    static function Scale(x: Scales.Scale, y: Scales.Scale, z: Scales.Scale): Transform3
      requires x.Get() != 0.0 && y.Get() != 0.0 && z.Get() != 0.0
    {
      NewRaw(Mat4(x.Get(), 0.0, 0.0, 0.0, 0.0, y.Get(), 0.0, 0.0, 0.0, 0.0, z.Get(), 0.0, 0.0, 0.0, 0.0, 1.0),
             Mat4(1.0 / x.Get(), 0.0, 0.0, 0.0, 0.0, 1.0 / y.Get(), 0.0, 0.0, 0.0, 0.0, 1.0 / z.Get(), 0.0, 0.0, 0.0, 0.0, 1.0))
    }

    /** `orthographic_lh`: the box maps to x, y in [-1, 1] and z in [0, 1]; it needs nonempty extents. */
    static function OrthographicLh(left: real, right: real, bottom: real, top: real, near: real, far: real): Transform3
      requires right - left != 0.0 && top - bottom != 0.0 && far - near != 0.0
    {
      var w := 1.0 / (right - left);
      var h := 1.0 / (top - bottom);
      var r := 1.0 / (far - near);
      var mat := Mat4(w + w, 0.0, 0.0, 0.0, 0.0, h + h, 0.0, 0.0, 0.0, 0.0, r, 0.0,
                      0.0 - (left + right) * w, 0.0 - (top + bottom) * h, 0.0 - r * near, 1.0);
      OrthographicInvertible(right - left, top - bottom, far - near, w, h, r, mat);
      New(mat)
    }

    /** `orthographic_rh`: as `orthographic_lh`, looking down the negative z axis. */
    static function OrthographicRh(left: real, right: real, bottom: real, top: real, near: real, far: real): Transform3
      requires right - left != 0.0 && top - bottom != 0.0 && near - far != 0.0
    {
      var w := 1.0 / (right - left);
      var h := 1.0 / (top - bottom);
      var r := 1.0 / (near - far);
      var mat := Mat4(w + w, 0.0, 0.0, 0.0, 0.0, h + h, 0.0, 0.0, 0.0, 0.0, r, 0.0,
                      0.0 - (left + right) * w, 0.0 - (top + bottom) * h, r * near, 1.0);
      OrthographicInvertible(right - left, top - bottom, near - far, w, h, r, mat);
      New(mat)
    }

    function Determinant(): real { mat.Determinant() }

    function IsInvertible(): bool { Determinant() != 0.0 }

    /** `Transformation::identity`, the translation by zero. */
    static function TransformationIdentity(): Transform3 { Translation(Vector3.Zero()) }

    function Inverse(): Transform3 { NewRaw(matInv, mat) }

    /** `self * rhs`: `self` acts first; the inverse is the product of the inverses in reverse order. */
    function Mul(rhs: Transform3): Transform3
    {
      NewRaw(MatMul4(mat, rhs.mat), MatMul4(rhs.matInv, matInv))
    }

    predicate Eq(other: Transform3) { mat == other.mat }

    function ApproxEqEps(other: Transform3, eps: real): bool
    {
      Num.ApproxEqEps(RowApproxEqEps, Rows4(mat), Rows4(other.mat), eps)
    }

    /** The point as the row `(x, y, z, 1)` times the matrix, left in homogeneous coordinates. */
    function TransformPoint(p: Point3): HomogeneousVector
    {
      HomogeneousVector(
        Dot4(p.x, p.y, p.z, 1.0, mat.m11, mat.m21, mat.m31, mat.m41),
        Dot4(p.x, p.y, p.z, 1.0, mat.m12, mat.m22, mat.m32, mat.m42),
        Dot4(p.x, p.y, p.z, 1.0, mat.m13, mat.m23, mat.m33, mat.m43),
        Dot4(p.x, p.y, p.z, 1.0, mat.m14, mat.m24, mat.m34, mat.m44))
    }

    /** `transform_point3`: the homogeneous image, projected back when its `w` is positive. */
    function TransformPoint3(p: Point3): Result<Point3, ()> { TransformPoint(p).ToPoint3() }

    /** Vectors see the upper-left 3x3 block only. */
    function TransformVector(v: Vector3): Vector3
    {
      Vector3(Dot3(v.x, v.y, v.z, mat.m11, mat.m21, mat.m31),
              Dot3(v.x, v.y, v.z, mat.m12, mat.m22, mat.m32),
              Dot3(v.x, v.y, v.z, mat.m13, mat.m23, mat.m33))
    }

    /** Normals go through the transpose of the inverse's 3x3 block. */
    function TransformNormal(n: Vector3): Vector3
    {
      Vector3(Dot3(n.x, n.y, n.z, matInv.m11, matInv.m12, matInv.m13),
              Dot3(n.x, n.y, n.z, matInv.m21, matInv.m22, matInv.m23),
              Dot3(n.x, n.y, n.z, matInv.m31, matInv.m32, matInv.m33))
    }

    /** The bounds of the eight projected corners, or `None` as soon as one fails to project. */
    function TransformBox(b: Box3): Option<Box3>
    {
      var (min, max) := (b.min, b.max);
      match TryBounds3([
        TransformPoint3(min),
        TransformPoint3(Point3(min.x, min.y, max.z)),
        TransformPoint3(Point3(min.x, max.y, min.z)),
        TransformPoint3(Point3(min.x, max.y, max.z)),
        TransformPoint3(Point3(max.x, min.y, min.z)),
        TransformPoint3(Point3(max.x, min.y, max.z)),
        TransformPoint3(Point3(max.x, max.y, min.z)),
        TransformPoint3(max)])
      case Ok(bx) => Some(bx)
      case Err(_) => None
    }

    static function FromTranslation(t: Translation3): Transform3 { Translation(t.ToVector()) }

    /** `From<Rotation3>`: the rotation matrix of the quaternion, with its transpose as inverse. */
    static function FromRotation3(q: Rotation3): Transform3
    {
      NewRaw(QuaternionMatrix(q.a, q.i, q.j, q.k), QuaternionMatrix(q.a, q.i, q.j, q.k).Transpose())
    }

    static function FromScale(s: Scales.Scale): Transform3
      requires s.Get() != 0.0
    {
      Scale(s, s, s)
    }
  }

  function Rows4(m: Mat4): seq<seq<real>>
  {
    [[m.m11, m.m12, m.m13, m.m14], [m.m21, m.m22, m.m23, m.m24], [m.m31, m.m32, m.m33, m.m34], [m.m41, m.m42, m.m43, m.m44]]
  }

  /** The eight corners of a 3D box, in the order the box transform visits them. */
  function Corners3(b: Box3): seq<Point3>
  {
    [b.min, Point3(b.min.x, b.min.y, b.max.z), Point3(b.min.x, b.max.y, b.min.z), Point3(b.min.x, b.max.y, b.max.z),
     Point3(b.max.x, b.min.y, b.min.z), Point3(b.max.x, b.min.y, b.max.z), Point3(b.max.x, b.max.y, b.min.z), b.max]
  }

  /** The orthographic matrices are invertible: diagonal up to the last row, with nonzero diagonal. */
  lemma OrthographicInvertible(dx: real, dy: real, dz: real, w: real, h: real, r: real, mat: Mat4)
    requires dx != 0.0 && dy != 0.0 && dz != 0.0 && w == 1.0 / dx && h == 1.0 / dy && r == 1.0 / dz
    requires mat.m12 == 0.0 && mat.m13 == 0.0 && mat.m14 == 0.0 && mat.m21 == 0.0 && mat.m23 == 0.0 && mat.m24 == 0.0
    requires mat.m31 == 0.0 && mat.m32 == 0.0 && mat.m34 == 0.0 && mat.m44 == 1.0
    requires mat.m11 == w + w && mat.m22 == h + h && mat.m33 == r
    ensures mat.Determinant() != 0.0
  {
    LowerTriangularDeterminant(mat);
    assert w != 0.0 && h != 0.0 && r != 0.0;
    NonzeroProduct(w + w, h + h, r);
  }

  lemma LowerTriangularDeterminant(m: Mat4)
    requires m.m12 == 0.0 && m.m13 == 0.0 && m.m14 == 0.0 && m.m23 == 0.0 && m.m24 == 0.0 && m.m34 == 0.0
    ensures m.Determinant() == m.m11 * m.m22 * m.m33 * m.m44
  {
  }

  lemma NonzeroProduct(a: real, b: real, c: real)
    requires a != 0.0 && b != 0.0 && c != 0.0
    ensures a * b * c * 1.0 != 0.0
  {
    assert a * b != 0.0;
  }

  /** `try_new` succeeds exactly for a nonzero determinant, and then caches a true inverse. */
  lemma TryNew3Correct(mat: Mat4)
    ensures Transform3.TryNew(mat).None? <==> !Transform3.NewRaw(mat, mat).IsInvertible()
    ensures Transform3.TryNew(mat).Some? ==> Transform3.TryNew(mat).value.mat == mat && Transform3.TryNew(mat).value.Valid()
  {
    MatInverse4Correct(mat);
  }

  lemma New3Valid(mat: Mat4)
    requires mat.Determinant() != 0.0
    ensures Transform3.New(mat).mat == mat && Transform3.New(mat).Valid()
  {
    TryNew3Correct(mat);
  }

  lemma Builders3Valid()
    ensures Transform3.Identity().Valid() && Transform3.Identity().IsIdentity()
    ensures Transform3.TransformationIdentity() == Transform3.Identity()
  {
  }

  lemma Translation3Valid(v: Vector3)
    ensures Transform3.Translation(v).Valid()
  {
    TranslationInverts3(v.x, v.y, v.z);
  }

  lemma TranslationInverts3(x: real, y: real, z: real)
    ensures Inverts4(Mat4(1.0, 0.0, 0.0, 0.0, 0.0, 1.0, 0.0, 0.0, 0.0, 0.0, 1.0, 0.0, x, y, z, 1.0),
                     Mat4(1.0, 0.0, 0.0, 0.0, 0.0, 1.0, 0.0, 0.0, 0.0, 0.0, 1.0, 0.0, 0.0 - x, 0.0 - y, 0.0 - z, 1.0))
  {
  }

  lemma Scale3Valid(x: Scales.Scale, y: Scales.Scale, z: Scales.Scale)
    requires x.Get() != 0.0 && y.Get() != 0.0 && z.Get() != 0.0
    ensures Transform3.Scale(x, y, z).Valid()
  {
    DiagonalInverts3(x.Get(), y.Get(), z.Get());
  }

  lemma DiagonalInverts3(x: real, y: real, z: real)
    requires x != 0.0 && y != 0.0 && z != 0.0
    ensures Inverts4(Mat4(x, 0.0, 0.0, 0.0, 0.0, y, 0.0, 0.0, 0.0, 0.0, z, 0.0, 0.0, 0.0, 0.0, 1.0),
                     Mat4(1.0 / x, 0.0, 0.0, 0.0, 0.0, 1.0 / y, 0.0, 0.0, 0.0, 0.0, 1.0 / z, 0.0, 0.0, 0.0, 0.0, 1.0))
  {
    assert x * (1.0 / x) == 1.0 && (1.0 / x) * x == 1.0;
    assert y * (1.0 / y) == 1.0 && (1.0 / y) * y == 1.0;
    assert z * (1.0 / z) == 1.0 && (1.0 / z) * z == 1.0;
  }

  lemma Mul3Laws(a: Transform3, b: Transform3, c: Transform3)
    ensures a.Valid() && b.Valid() ==> a.Mul(b).Valid()
    ensures a.Mul(b).Mul(c) == a.Mul(b.Mul(c))
    ensures Transform3.Identity().Mul(a) == a && a.Mul(Transform3.Identity()) == a
  {
    if a.Valid() && b.Valid() {
      Inverts4Compose(a.mat, a.matInv, b.mat, b.matInv);
    }
    MatMul4Assoc(a.mat, b.mat, c.mat);
    MatMul4Assoc(c.matInv, b.matInv, a.matInv);
    MatMul4Identity(a.mat);
    MatMul4Identity(a.matInv);
  }

  /** Composition acts on homogeneous coordinates: the product's image is the first image times the second matrix. */
  lemma Mul3Homogeneous(a: Transform3, b: Transform3, p: Point3)
    ensures a.Mul(b).TransformPoint(p) == RowTimes(a.TransformPoint(p), b.mat)
  {
    var m := a.mat;
    AssocEntry(p.x, p.y, p.z, 1.0, m.m11, m.m12, m.m13, m.m14, m.m21, m.m22, m.m23, m.m24, m.m31, m.m32, m.m33, m.m34, m.m41, m.m42, m.m43, m.m44, b.mat.m11, b.mat.m21, b.mat.m31, b.mat.m41);
    AssocEntry(p.x, p.y, p.z, 1.0, m.m11, m.m12, m.m13, m.m14, m.m21, m.m22, m.m23, m.m24, m.m31, m.m32, m.m33, m.m34, m.m41, m.m42, m.m43, m.m44, b.mat.m12, b.mat.m22, b.mat.m32, b.mat.m42);
    AssocEntry(p.x, p.y, p.z, 1.0, m.m11, m.m12, m.m13, m.m14, m.m21, m.m22, m.m23, m.m24, m.m31, m.m32, m.m33, m.m34, m.m41, m.m42, m.m43, m.m44, b.mat.m13, b.mat.m23, b.mat.m33, b.mat.m43);
    AssocEntry(p.x, p.y, p.z, 1.0, m.m11, m.m12, m.m13, m.m14, m.m21, m.m22, m.m23, m.m24, m.m31, m.m32, m.m33, m.m34, m.m41, m.m42, m.m43, m.m44, b.mat.m14, b.mat.m24, b.mat.m34, b.mat.m44);
  }

  /** Scaling a homogeneous row scales each coordinate of its image by the same factor. */
  lemma ScaledRowX(h: HomogeneousVector, k: real, m: Mat4)
    ensures RowTimes(HomogeneousVector(k * h.x, k * h.y, k * h.z, k * h.w), m).x == k * RowTimes(h, m).x
  {
    ScaledColumn(k, h.x, h.y, h.z, h.w, m.m11, m.m21, m.m31, m.m41);
  }

  lemma ScaledRowY(h: HomogeneousVector, k: real, m: Mat4)
    ensures RowTimes(HomogeneousVector(k * h.x, k * h.y, k * h.z, k * h.w), m).y == k * RowTimes(h, m).y
  {
    ScaledColumn(k, h.x, h.y, h.z, h.w, m.m12, m.m22, m.m32, m.m42);
  }

  lemma ScaledRowZ(h: HomogeneousVector, k: real, m: Mat4)
    ensures RowTimes(HomogeneousVector(k * h.x, k * h.y, k * h.z, k * h.w), m).z == k * RowTimes(h, m).z
  {
    ScaledColumn(k, h.x, h.y, h.z, h.w, m.m13, m.m23, m.m33, m.m43);
  }

  lemma ScaledRowW(h: HomogeneousVector, k: real, m: Mat4)
    ensures RowTimes(HomogeneousVector(k * h.x, k * h.y, k * h.z, k * h.w), m).w == k * RowTimes(h, m).w
  {
    ScaledColumn(k, h.x, h.y, h.z, h.w, m.m14, m.m24, m.m34, m.m44);
  }

  lemma ScaledColumn(k: real, a1: real, a2: real, a3: real, a4: real, b1: real, b2: real, b3: real, b4: real)
    ensures Dot4(k * a1, k * a2, k * a3, k * a4, b1, b2, b3, b4) == k * Dot4(a1, a2, a3, a4, b1, b2, b3, b4)
  {
  }

  /**
   * `a * b` on points is `a` then `b`: whenever `a` sends `p` to a point
   * (positive `w`), projecting the product's image gives the same result as
   * projecting twice.
   */
  lemma Mul3Point(a: Transform3, b: Transform3, p: Point3)
    requires a.TransformPoint(p).w > 0.0
    ensures a.Mul(b).TransformPoint3(p) == b.TransformPoint3(a.TransformPoint3(p).value)
  {
    var h := a.TransformPoint(p);
    var q := a.TransformPoint3(p).value;
    assert b.TransformPoint(q) == RowTimes(FromPoint3(q), b.mat);
    ProjectThenMultiply(h, b.mat);
    Mul3Homogeneous(a, b, p);
  }

  /** Projecting a homogeneous row before multiplying by `m` gives the same point as projecting afterwards. */
  lemma ProjectThenMultiply(h: HomogeneousVector, m: Mat4)
    requires h.w > 0.0
    ensures RowTimes(FromPoint3(h.ToPoint3().value), m).ToPoint3() == RowTimes(h, m).ToPoint3()
  {
    var k := 1.0 / h.w;
    ProjectedRow(h, k);
    ScaledRowX(h, k, m);
    ScaledRowY(h, k, m);
    ScaledRowZ(h, k, m);
    ScaledRowW(h, k, m);
    ScaledImage(RowTimes(h, m), k, RowTimes(FromPoint3(h.ToPoint3().value), m));
  }

  lemma ScaledImage(r: HomogeneousVector, k: real, s: HomogeneousVector)
    requires k > 0.0 && s.x == k * r.x && s.y == k * r.y && s.z == k * r.z && s.w == k * r.w
    ensures s.ToPoint3() == r.ToPoint3()
  {
    ScaleInvariance(r, k);
  }

  lemma ProjectedRow(h: HomogeneousVector, k: real)
    requires h.w > 0.0 && k == 1.0 / h.w
    ensures FromPoint3(h.ToPoint3().value) == HomogeneousVector(k * h.x, k * h.y, k * h.z, k * h.w)
  {
  }

  lemma IdentityImage3(t: Transform3, p: Point3)
    requires t.mat == Identity4()
    ensures t.TransformPoint3(p) == Ok(p)
  {
    assert t.TransformPoint(p) == FromPoint3(p);
    PointRoundTrip(Point2(p.x, p.y), p);
  }

  /** The inverse swaps the two matrices; on a valid transform it undoes every projectable image. */
  lemma Inverse3Laws(t: Transform3, p: Point3)
    ensures t.Inverse().Inverse() == t && t.Inverse().mat == t.matInv && t.Inverse().matInv == t.mat
    ensures t.Valid() ==> t.Inverse().Valid()
    ensures t.Valid() && t.TransformPoint(p).w > 0.0 ==> t.Inverse().TransformPoint3(t.TransformPoint3(p).value) == Ok(p)
    ensures t.Valid() && t.Inverse().TransformPoint(p).w > 0.0 ==> t.TransformPoint3(t.Inverse().TransformPoint3(p).value) == Ok(p)
  {
    if t.Valid() && t.TransformPoint(p).w > 0.0 {
      Mul3Point(t, t.Inverse(), p);
      IdentityImage3(t.Mul(t.Inverse()), p);
    }
    if t.Valid() && t.Inverse().TransformPoint(p).w > 0.0 {
      Mul3Point(t.Inverse(), t, p);
      IdentityImage3(t.Inverse().Mul(t), p);
    }
  }

  lemma Eq3Laws(a: Transform3, b: Transform3, inv: Mat4, p: Point3, v: Vector3)
    ensures Transform3.NewRaw(a.mat, inv).Eq(a)
    ensures a.Eq(b) ==> b.Eq(a) && a.TransformPoint(p) == b.TransformPoint(p) && a.TransformVector(v) == b.TransformVector(v)
    ensures a.IsIdentity() <==> a.Eq(Transform3.Identity())
  {
  }

  lemma RowApprox4(a1: real, a2: real, a3: real, a4: real, b1: real, b2: real, b3: real, b4: real, eps: real)
    ensures RowApproxEqEps([a1, a2, a3, a4], [b1, b2, b3, b4], eps) <==>
      Num.RealApproxEqEps(a1, b1, eps) && Num.RealApproxEqEps(a2, b2, eps) && Num.RealApproxEqEps(a3, b3, eps) && Num.RealApproxEqEps(a4, b4, eps)
  {
    var a, b := [a1, a2, a3, a4], [b1, b2, b3, b4];
    Num.ApproxEqEpsAll(Num.RealApproxEqEps, a, b, eps);
    assert a[0] == a1 && a[1] == a2 && a[2] == a3 && a[3] == a4;
    assert b[0] == b1 && b[1] == b2 && b[2] == b3 && b[3] == b4;
  }

  /** `approx_eq_eps` holds exactly when every entry of the forward matrices is within `eps`; the inverses are not compared. */
  lemma ApproxEq3Entries(a: Transform3, b: Transform3, eps: real)
    ensures a.ApproxEqEps(b, eps) <==>
      (Num.RealApproxEqEps(a.mat.m11, b.mat.m11, eps) && Num.RealApproxEqEps(a.mat.m12, b.mat.m12, eps)
       && Num.RealApproxEqEps(a.mat.m13, b.mat.m13, eps) && Num.RealApproxEqEps(a.mat.m14, b.mat.m14, eps))
      && (Num.RealApproxEqEps(a.mat.m21, b.mat.m21, eps) && Num.RealApproxEqEps(a.mat.m22, b.mat.m22, eps)
       && Num.RealApproxEqEps(a.mat.m23, b.mat.m23, eps) && Num.RealApproxEqEps(a.mat.m24, b.mat.m24, eps))
      && (Num.RealApproxEqEps(a.mat.m31, b.mat.m31, eps) && Num.RealApproxEqEps(a.mat.m32, b.mat.m32, eps)
       && Num.RealApproxEqEps(a.mat.m33, b.mat.m33, eps) && Num.RealApproxEqEps(a.mat.m34, b.mat.m34, eps))
      && (Num.RealApproxEqEps(a.mat.m41, b.mat.m41, eps) && Num.RealApproxEqEps(a.mat.m42, b.mat.m42, eps)
       && Num.RealApproxEqEps(a.mat.m43, b.mat.m43, eps) && Num.RealApproxEqEps(a.mat.m44, b.mat.m44, eps))
  {
    var m, n := a.mat, b.mat;
    var ra, rb := Rows4(m), Rows4(n);
    Num.ApproxEqEpsAll(RowApproxEqEps, ra, rb, eps);
    RowApprox4(m.m11, m.m12, m.m13, m.m14, n.m11, n.m12, n.m13, n.m14, eps);
    RowApprox4(m.m21, m.m22, m.m23, m.m24, n.m21, n.m22, n.m23, n.m24, eps);
    RowApprox4(m.m31, m.m32, m.m33, m.m34, n.m31, n.m32, n.m33, n.m34, eps);
    RowApprox4(m.m41, m.m42, m.m43, m.m44, n.m41, n.m42, n.m43, n.m44, eps);
    assert ra[0] == [m.m11, m.m12, m.m13, m.m14] && rb[0] == [n.m11, n.m12, n.m13, n.m14];
    assert ra[1] == [m.m21, m.m22, m.m23, m.m24] && rb[1] == [n.m21, n.m22, n.m23, n.m24];
    assert ra[2] == [m.m31, m.m32, m.m33, m.m34] && rb[2] == [n.m31, n.m32, n.m33, n.m34];
    assert ra[3] == [m.m41, m.m42, m.m43, m.m44] && rb[3] == [n.m41, n.m42, n.m43, n.m44];
  }

  /** So the comparison is symmetric, and a transform is close to itself exactly when `eps` is positive. */
  lemma ApproxEq3Laws(a: Transform3, b: Transform3, eps: real)
    ensures a.ApproxEqEps(b, eps) <==> b.ApproxEqEps(a, eps)
    ensures a.ApproxEqEps(a, eps) <==> eps > 0.0
  {
    ApproxEq3Entries(a, b, eps);
    ApproxEq3Entries(b, a, eps);
    ApproxEq3Entries(a, a, eps);
  }

  /** Translations move points by the vector, leave directions alone, and add up under composition. */
  lemma Translation3Laws(v: Vector3, w: Vector3, p: Point3, u: Vector3, t: Translation3)
    ensures Transform3.Translation(v).TransformPoint3(p) == Ok(p.AddVector(v))
    ensures Transform3.Translation(v).TransformVector(u) == u && Transform3.Translation(v).TransformNormal(u) == u
    ensures Transform3.Translation(v).Mul(Transform3.Translation(w)) == Transform3.Translation(v.Add(w))
    ensures Transform3.Translation(v).Inverse() == Transform3.Translation(v.Neg())
    ensures Transform3.FromTranslation(t).TransformPoint3(p) == Ok(t.TransformPoint(p))
  {
  }

  /** The unit test of translation: composition with the identity, a point, a vector, a normal and the square. */
  lemma TranslationExample3()
    ensures Transform3.Translation(Vector3(1.0, 2.0, 3.0)).Mul(Transform3.Identity()).Eq(Transform3.Translation(Vector3(1.0, 2.0, 3.0)))
    ensures Transform3.Identity().Mul(Transform3.Translation(Vector3(1.0, 2.0, 3.0))).Eq(Transform3.Translation(Vector3(1.0, 2.0, 3.0)))
    ensures Transform3.Translation(Vector3(1.0, 2.0, 3.0)).TransformPoint3(Point3.Splat(1.0)) == Ok(Point3(2.0, 3.0, 4.0))
    ensures Transform3.Translation(Vector3(1.0, 2.0, 3.0)).TransformVector(Vector3.Splat(2.0)) == Vector3.Splat(2.0)
    ensures Transform3.Translation(Vector3(1.0, 2.0, 3.0)).TransformNormal(Vector3.Splat(1.0)) == Vector3.Splat(1.0)
    ensures Transform3.Translation(Vector3(1.0, 2.0, 3.0)).Mul(Transform3.Translation(Vector3(1.0, 2.0, 3.0))).Eq(Transform3.Translation(Vector3(2.0, 4.0, 6.0)))
  {
  }

  /** An affine matrix (last column `(0, 0, 0, 1)`) never fails to project: `w` stays 1. */
  lemma AffineImage3(t: Transform3, p: Point3)
    requires t.mat.m14 == 0.0 && t.mat.m24 == 0.0 && t.mat.m34 == 0.0 && t.mat.m44 == 1.0
    ensures t.TransformPoint(p).w == 1.0
    ensures t.TransformPoint3(p) == Ok(Point3(t.TransformPoint(p).x, t.TransformPoint(p).y, t.TransformPoint(p).z))
  {
    UnitW(t.TransformPoint(p));
  }

  lemma UnitW(h: HomogeneousVector)
    requires h.w == 1.0
    ensures h.ToPoint3() == Ok(Point3(h.x, h.y, h.z))
  {
  }

  /** Scaling multiplies points and vectors coordinatewise and divides normals. */
  lemma Scale3Laws(x: Scales.Scale, y: Scales.Scale, z: Scales.Scale, p: Point3, v: Vector3)
    requires x.Get() != 0.0 && y.Get() != 0.0 && z.Get() != 0.0
    ensures Transform3.Scale(x, y, z).TransformPoint3(p) == Ok(Point3(p.x * x.Get(), p.y * y.Get(), p.z * z.Get()))
    ensures Transform3.Scale(x, y, z).TransformVector(v) == Vector3(v.x * x.Get(), v.y * y.Get(), v.z * z.Get())
    ensures Transform3.Scale(x, y, z).TransformNormal(v) == Vector3(v.x / x.Get(), v.y / y.Get(), v.z / z.Get())
  {
    Scale3Point(x, y, z, p);
  }

  lemma Scale3Point(x: Scales.Scale, y: Scales.Scale, z: Scales.Scale, p: Point3)
    requires x.Get() != 0.0 && y.Get() != 0.0 && z.Get() != 0.0
    ensures Transform3.Scale(x, y, z).TransformPoint3(p) == Ok(Point3(p.x * x.Get(), p.y * y.Get(), p.z * z.Get()))
  {
    var a, b, c := x.Get(), y.Get(), z.Get();
    ScaledImage3(Transform3.Scale(x, y, z), p, a, b, c);
    assert Point3(p.x * a, p.y * b, p.z * c) == Point3(p.x * x.Get(), p.y * y.Get(), p.z * z.Get());
  }

  lemma ScaledImage3(t: Transform3, p: Point3, x: real, y: real, z: real)
    requires t.mat == Mat4(x, 0.0, 0.0, 0.0, 0.0, y, 0.0, 0.0, 0.0, 0.0, z, 0.0, 0.0, 0.0, 0.0, 1.0)
    ensures t.TransformPoint3(p) == Ok(Point3(p.x * x, p.y * y, p.z * z))
  {
    assert t.TransformPoint(p) == HomogeneousVector(p.x * x, p.y * y, p.z * z, 1.0);
    UnitW(t.TransformPoint(p));
  }

  /** `From<Scale>` acts as the scale factor itself does, on points and on vectors and normals. */
  lemma FromScale3Point(s: Scales.Scale, p: Point3)
    requires s.Get() != 0.0
    ensures Transform3.FromScale(s).TransformPoint3(p) == Ok(s.TransformPoint3(p))
  {
    assert s.TransformPoint3(p) == Point3(p.x * s.Get(), p.y * s.Get(), p.z * s.Get());
    Scale3Laws(s, s, s, p, Vector3.Zero());
  }

  lemma FromScale3Directions(s: Scales.Scale, v: Vector3)
    requires s.Get() != 0.0
    ensures Transform3.FromScale(s).TransformVector(v) == s.TransformVector3(v)
    ensures Transform3.FromScale(s).TransformNormal(v) == s.TransformNormal3(v)
  {
    assert s.TransformVector3(v) == Vector3(v.x * s.Get(), v.y * s.Get(), v.z * s.Get());
    assert s.TransformNormal3(v) == Vector3(v.x / s.Get(), v.y / s.Get(), v.z / s.Get());
    Scale3Laws(s, s, s, Point3.Origin(), v);
  }

  /**
   * `From<Rotation3>` acts on vectors and normals as the quaternion does. The
   * matrix entries expand `v + a c + u × c` with `u` the vector part and
   * `c = 2 (u × v)`, so the agreement needs no unit norm.
   */
  lemma FromRotation3Vector(q: Rotation3, v: Vector3)
    ensures Transform3.FromRotation3(q).TransformVector(v) == q.TransformVector(v)
    ensures Transform3.FromRotation3(q).TransformNormal(v) == q.TransformNormal(v)
  {
    RotatedX(q, v);
    RotatedY(q, v);
    RotatedZ(q, v);
    RotationColumnX(q.a, q.i, q.j, q.k, v.x, v.y, v.z);
    RotationColumnY(q.a, q.i, q.j, q.k, v.x, v.y, v.z);
    RotationColumnZ(q.a, q.i, q.j, q.k, v.x, v.y, v.z);
  }

  /** On points, `From<Rotation3>` is affine and agrees with the quaternion's point transform. */
  lemma FromRotation3Point(q: Rotation3, p: Point3)
    ensures Transform3.FromRotation3(q).TransformPoint(p).w == 1.0
    ensures Transform3.FromRotation3(q).TransformPoint3(p) == Ok(q.TransformPoint(p))
  {
    var t := Transform3.FromRotation3(q);
    AffineImage3(t, p);
    FromRotation3Vector(q, p.ToVector());
    LinearDot4(p.x, p.y, p.z, t.mat.m11, t.mat.m21, t.mat.m31);
    LinearDot4(p.x, p.y, p.z, t.mat.m12, t.mat.m22, t.mat.m32);
    LinearDot4(p.x, p.y, p.z, t.mat.m13, t.mat.m23, t.mat.m33);
    assert q.TransformVector(p.ToVector()) == q.TransformPoint(p).ToVector();
  }

  /**
   * `rotation(axis, theta)` builds the same transform as `From<Rotation3>`
   * does from the quaternion `around_axis` describes (scalar part `cos`,
   * vector part `sin * axis`), whatever the axis and the angle.
   */
  lemma RotationIsQuaternion(axis: Vector3, sin: real, cos: real)
    ensures Transform3.Rotation(axis, sin, cos) == Transform3.FromRotation3(AroundAxis(axis, sin, cos))
  {
    var q := AroundAxis(axis, sin, cos);
    AxisAngleIsQuaternion(axis.x, axis.y, axis.z, sin, q.a, q.i, q.j, q.k);
    SameFromMatrix(Transform3.Rotation(axis, sin, cos), Transform3.FromRotation3(q), QuaternionMatrix(q.a, q.i, q.j, q.k));
  }

  lemma SameFromMatrix(t: Transform3, u: Transform3, m: Mat4)
    requires t == Transform3.NewRaw(m, m.Transpose()) && u == Transform3.NewRaw(m, m.Transpose())
    ensures t == u
  {
  }

  /** So `rotation` moves vectors and points as the quaternion does. */
  lemma RotationAgrees(axis: Vector3, sin: real, cos: real, v: Vector3, p: Point3)
    ensures Transform3.Rotation(axis, sin, cos).TransformVector(v) == AroundAxis(axis, sin, cos).TransformVector(v)
    ensures Transform3.Rotation(axis, sin, cos).TransformPoint3(p) == Ok(AroundAxis(axis, sin, cos).TransformPoint(p))
  {
    RotationIsQuaternion(axis, sin, cos);
    FromRotation3Vector(AroundAxis(axis, sin, cos), v);
    FromRotation3Point(AroundAxis(axis, sin, cos), p);
  }

  lemma AxisAngleIsQuaternion(x: real, y: real, z: real, s: real, c: real, i: real, j: real, k: real)
    requires i == x * s && j == y * s && k == z * s
    ensures AxisAngleMatrix(x, y, z, s, c) == QuaternionMatrix(c, i, j, k)
  {
    AxisAngleEntries(x, y, z, s, c, i, j, k);
  }

  lemma AxisAngleEntries(x: real, y: real, z: real, s: real, c: real, i: real, j: real, k: real)
    requires i == x * s && j == y * s && k == z * s
    ensures 1.0 - (1.0 + 1.0) * (y * y + z * z) * (s * s) == 1.0 - ((j + j) * j + k * (k + k))
    ensures 1.0 - (1.0 + 1.0) * (x * x + z * z) * (s * s) == 1.0 - ((i + i) * i + k * (k + k))
    ensures 1.0 - (1.0 + 1.0) * (x * x + y * y) * (s * s) == 1.0 - ((i + i) * i + (j + j) * j)
    ensures (1.0 + 1.0) * (x * y * (s * s) + z * (s * c)) == (j + j) * i + (k + k) * c
    ensures (1.0 + 1.0) * (x * y * (s * s) - z * (s * c)) == (j + j) * i - (k + k) * c
    ensures (1.0 + 1.0) * (x * z * (s * s) - y * (s * c)) == (k + k) * i - (j + j) * c
    ensures (1.0 + 1.0) * (x * z * (s * s) + y * (s * c)) == (k + k) * i + (j + j) * c
    ensures (1.0 + 1.0) * (y * z * (s * s) + x * (s * c)) == (k + k) * j + (i + i) * c
    ensures (1.0 + 1.0) * (y * z * (s * s) - x * (s * c)) == (k + k) * j - (i + i) * c
  {
  }

  lemma LinearDot4(x: real, y: real, z: real, m1: real, m2: real, m3: real)
    ensures Dot4(x, y, z, 1.0, m1, m2, m3, 0.0) == Dot3(x, y, z, m1, m2, m3)
  {
  }

  lemma RotatedX(q: Rotation3, v: Vector3)
    ensures q.TransformVector(v).x == v.x + q.a * ((q.j * v.z - q.k * v.y) * 2.0) + q.j * ((q.i * v.y - q.j * v.x) * 2.0) - q.k * ((q.k * v.x - q.i * v.z) * 2.0)
  {
    TransformVectorX(q, v);
  }

  lemma RotatedY(q: Rotation3, v: Vector3)
    ensures q.TransformVector(v).y == v.y + q.a * ((q.k * v.x - q.i * v.z) * 2.0) + q.k * ((q.j * v.z - q.k * v.y) * 2.0) - q.i * ((q.i * v.y - q.j * v.x) * 2.0)
  {
    TransformVectorY(q, v);
  }

  lemma RotatedZ(q: Rotation3, v: Vector3)
    ensures q.TransformVector(v).z == v.z + q.a * ((q.i * v.y - q.j * v.x) * 2.0) + q.i * ((q.k * v.x - q.i * v.z) * 2.0) - q.j * ((q.j * v.z - q.k * v.y) * 2.0)
  {
    TransformVectorZ(q, v);
  }

  lemma RotationColumnX(a: real, i: real, j: real, k: real, vx: real, vy: real, vz: real)
    ensures var m := QuaternionMatrix(a, i, j, k);
      Dot3(vx, vy, vz, m.m11, m.m21, m.m31) == vx + a * ((j * vz - k * vy) * 2.0) + j * ((i * vy - j * vx) * 2.0) - k * ((k * vx - i * vz) * 2.0)
  {
    var m := QuaternionMatrix(a, i, j, k);
    RotationEntriesX(a, i, j, k, vx, vy, vz, m.m11, m.m21, m.m31);
  }

  lemma RotationEntriesX(a: real, i: real, j: real, k: real, vx: real, vy: real, vz: real, m1: real, m2: real, m3: real)
    requires m1 == 1.0 - ((j + j) * j + k * (k + k)) && m2 == (j + j) * i - (k + k) * a && m3 == (k + k) * i + (j + j) * a
    ensures Dot3(vx, vy, vz, m1, m2, m3) == vx + a * ((j * vz - k * vy) * 2.0) + j * ((i * vy - j * vx) * 2.0) - k * ((k * vx - i * vz) * 2.0)
  {
  }

  lemma RotationColumnY(a: real, i: real, j: real, k: real, vx: real, vy: real, vz: real)
    ensures var m := QuaternionMatrix(a, i, j, k);
      Dot3(vx, vy, vz, m.m12, m.m22, m.m32) == vy + a * ((k * vx - i * vz) * 2.0) + k * ((j * vz - k * vy) * 2.0) - i * ((i * vy - j * vx) * 2.0)
  {
    var m := QuaternionMatrix(a, i, j, k);
    RotationEntriesY(a, i, j, k, vx, vy, vz, m.m12, m.m22, m.m32);
  }

  lemma RotationEntriesY(a: real, i: real, j: real, k: real, vx: real, vy: real, vz: real, m1: real, m2: real, m3: real)
    requires m1 == (j + j) * i + (k + k) * a && m2 == 1.0 - ((i + i) * i + k * (k + k)) && m3 == (k + k) * j - (i + i) * a
    ensures Dot3(vx, vy, vz, m1, m2, m3) == vy + a * ((k * vx - i * vz) * 2.0) + k * ((j * vz - k * vy) * 2.0) - i * ((i * vy - j * vx) * 2.0)
  {
  }

  lemma RotationColumnZ(a: real, i: real, j: real, k: real, vx: real, vy: real, vz: real)
    ensures var m := QuaternionMatrix(a, i, j, k);
      Dot3(vx, vy, vz, m.m13, m.m23, m.m33) == vz + a * ((i * vy - j * vx) * 2.0) + i * ((k * vx - i * vz) * 2.0) - j * ((j * vz - k * vy) * 2.0)
  {
    var m := QuaternionMatrix(a, i, j, k);
    RotationEntriesZ(a, i, j, k, vx, vy, vz, m.m13, m.m23, m.m33);
  }

  lemma RotationEntriesZ(a: real, i: real, j: real, k: real, vx: real, vy: real, vz: real, m1: real, m2: real, m3: real)
    requires m1 == (k + k) * i - (j + j) * a && m2 == (k + k) * j + (i + i) * a && m3 == 1.0 - ((i + i) * i + (j + j) * j)
    ensures Dot3(vx, vy, vz, m1, m2, m3) == vz + a * ((i * vy - j * vx) * 2.0) + i * ((k * vx - i * vz) * 2.0) - j * ((j * vz - k * vy) * 2.0)
  {
  }

  /**
   * `a * b` on vectors is `a` then `b` when the product's linear block is the
   * product of the linear blocks: `a` has no projective column, or `b` no translation.
   */
  lemma Mul3Vector(a: Transform3, b: Transform3, v: Vector3)
    requires (a.mat.m14 == 0.0 && a.mat.m24 == 0.0 && a.mat.m34 == 0.0) || (b.mat.m41 == 0.0 && b.mat.m42 == 0.0 && b.mat.m43 == 0.0)
    ensures a.Mul(b).TransformVector(v) == b.TransformVector(a.TransformVector(v))
  {
    var m := a.mat;
    LinearEntry3(v.x, v.y, v.z, m.m11, m.m12, m.m13, m.m14, m.m21, m.m22, m.m23, m.m24, m.m31, m.m32, m.m33, m.m34, b.mat.m11, b.mat.m21, b.mat.m31, b.mat.m41);
    LinearEntry3(v.x, v.y, v.z, m.m11, m.m12, m.m13, m.m14, m.m21, m.m22, m.m23, m.m24, m.m31, m.m32, m.m33, m.m34, b.mat.m12, b.mat.m22, b.mat.m32, b.mat.m42);
    LinearEntry3(v.x, v.y, v.z, m.m11, m.m12, m.m13, m.m14, m.m21, m.m22, m.m23, m.m24, m.m31, m.m32, m.m33, m.m34, b.mat.m13, b.mat.m23, b.mat.m33, b.mat.m43);
  }

  lemma LinearEntry3(v1: real, v2: real, v3: real, a11: real, a12: real, a13: real, a14: real, a21: real, a22: real, a23: real, a24: real,
                     a31: real, a32: real, a33: real, a34: real, c1: real, c2: real, c3: real, c4: real)
    requires (a14 == 0.0 && a24 == 0.0 && a34 == 0.0) || c4 == 0.0
    ensures Dot3(Dot3(v1, v2, v3, a11, a21, a31), Dot3(v1, v2, v3, a12, a22, a32), Dot3(v1, v2, v3, a13, a23, a33), c1, c2, c3)
         == Dot3(v1, v2, v3, Dot4(a11, a12, a13, a14, c1, c2, c3, c4), Dot4(a21, a22, a23, a24, c1, c2, c3, c4), Dot4(a31, a32, a33, a34, c1, c2, c3, c4))
  {
    assert Dot3(v1, v2, v3, Dot4(a11, a12, a13, a14, c1, c2, c3, c4), Dot4(a21, a22, a23, a24, c1, c2, c3, c4), Dot4(a31, a32, a33, a34, c1, c2, c3, c4))
        == Dot3(v1, v2, v3, Dot3(a11, a12, a13, c1, c2, c3), Dot3(a21, a22, a23, c1, c2, c3), Dot3(a31, a32, a33, c1, c2, c3))
         + (v1 * a14 + v2 * a24 + v3 * a34) * c4;
  }

  /**
   * Normals go through the inverse transpose, so for a valid affine transform
   * the dot product of a normal with any vector is unchanged.
   */
  lemma Normal3Preserved(t: Transform3, n: Vector3, v: Vector3)
    requires t.Valid() && t.mat.m14 == 0.0 && t.mat.m24 == 0.0 && t.mat.m34 == 0.0
    ensures t.TransformNormal(n).Dot(t.TransformVector(v)) == n.Dot(v)
  {
    var m, i := t.mat, t.matInv;
    var n' := t.TransformNormal(n);
    InverseBlock3(m, i);
    Regroup3(n'.x, n'.y, n'.z, v.x, v.y, v.z, m.m11, m.m12, m.m13, m.m21, m.m22, m.m23, m.m31, m.m32, m.m33);
    RowCancel(m.m11, m.m12, m.m13, i.m11, i.m12, i.m13, i.m21, i.m22, i.m23, i.m31, i.m32, i.m33, n.x, n.y, n.z, 1.0, 0.0, 0.0);
    RowCancel(m.m21, m.m22, m.m23, i.m11, i.m12, i.m13, i.m21, i.m22, i.m23, i.m31, i.m32, i.m33, n.x, n.y, n.z, 0.0, 1.0, 0.0);
    RowCancel(m.m31, m.m32, m.m33, i.m11, i.m12, i.m13, i.m21, i.m22, i.m23, i.m31, i.m32, i.m33, n.x, n.y, n.z, 0.0, 0.0, 1.0);
  }

  /** With no projective column, the 3x3 blocks of a matrix and its inverse are inverse to each other. */
  lemma InverseBlock3(m: Mat4, i: Mat4)
    requires MatMul4(m, i) == Identity4() && m.m14 == 0.0 && m.m24 == 0.0 && m.m34 == 0.0
    ensures Dot3(m.m11, m.m12, m.m13, i.m11, i.m21, i.m31) == 1.0 && Dot3(m.m11, m.m12, m.m13, i.m12, i.m22, i.m32) == 0.0
    ensures Dot3(m.m11, m.m12, m.m13, i.m13, i.m23, i.m33) == 0.0
    ensures Dot3(m.m21, m.m22, m.m23, i.m11, i.m21, i.m31) == 0.0 && Dot3(m.m21, m.m22, m.m23, i.m12, i.m22, i.m32) == 1.0
    ensures Dot3(m.m21, m.m22, m.m23, i.m13, i.m23, i.m33) == 0.0
    ensures Dot3(m.m31, m.m32, m.m33, i.m11, i.m21, i.m31) == 0.0 && Dot3(m.m31, m.m32, m.m33, i.m12, i.m22, i.m32) == 0.0
    ensures Dot3(m.m31, m.m32, m.m33, i.m13, i.m23, i.m33) == 1.0
  {
    assert MatMul4(m, i).m11 == 1.0 && MatMul4(m, i).m12 == 0.0 && MatMul4(m, i).m13 == 0.0;
    assert MatMul4(m, i).m21 == 0.0 && MatMul4(m, i).m22 == 1.0 && MatMul4(m, i).m23 == 0.0;
    assert MatMul4(m, i).m31 == 0.0 && MatMul4(m, i).m32 == 0.0 && MatMul4(m, i).m33 == 1.0;
  }

  lemma Regroup3(n1: real, n2: real, n3: real, v1: real, v2: real, v3: real,
                 m11: real, m12: real, m13: real, m21: real, m22: real, m23: real, m31: real, m32: real, m33: real)
    ensures n1 * Dot3(v1, v2, v3, m11, m21, m31) + n2 * Dot3(v1, v2, v3, m12, m22, m32) + n3 * Dot3(v1, v2, v3, m13, m23, m33)
         == v1 * Dot3(m11, m12, m13, n1, n2, n3) + v2 * Dot3(m21, m22, m23, n1, n2, n3) + v3 * Dot3(m31, m32, m33, n1, n2, n3)
  {
  }

  lemma RowCancel(m1: real, m2: real, m3: real, i11: real, i12: real, i13: real, i21: real, i22: real, i23: real,
                  i31: real, i32: real, i33: real, n1: real, n2: real, n3: real, e1: real, e2: real, e3: real)
    requires Dot3(m1, m2, m3, i11, i21, i31) == e1 && Dot3(m1, m2, m3, i12, i22, i32) == e2 && Dot3(m1, m2, m3, i13, i23, i33) == e3
    ensures Dot3(m1, m2, m3, Dot3(n1, n2, n3, i11, i12, i13), Dot3(n1, n2, n3, i21, i22, i23), Dot3(n1, n2, n3, i31, i32, i33))
         == n1 * e1 + n2 * e2 + n3 * e3
  {
    assert Dot3(m1, m2, m3, Dot3(n1, n2, n3, i11, i12, i13), Dot3(n1, n2, n3, i21, i22, i23), Dot3(n1, n2, n3, i31, i32, i33))
        == n1 * Dot3(m1, m2, m3, i11, i21, i31) + n2 * Dot3(m1, m2, m3, i12, i22, i32) + n3 * Dot3(m1, m2, m3, i13, i23, i33);
  }

  /** The projected corners of `b`, in the order the box transform visits them. */
  function CornerImages3(t: Transform3, b: Box3): (r: seq<Result<Point3, ()>>)
    ensures |r| == 8 && forall i :: 0 <= i < 8 ==> r[i] == t.TransformPoint3(Corners3(b)[i])
  {
    var c := Corners3(b);
    [t.TransformPoint3(c[0]), t.TransformPoint3(c[1]), t.TransformPoint3(c[2]), t.TransformPoint3(c[3]),
     t.TransformPoint3(c[4]), t.TransformPoint3(c[5]), t.TransformPoint3(c[6]), t.TransformPoint3(c[7])]
  }

  /**
   * The box transform fails exactly when some corner fails to project
   * (`w <= 0`); otherwise the box holds every projected corner.
   */
  lemma Box3Laws(t: Transform3, b: Box3)
    ensures t.TransformBox(b).None? <==> exists i :: 0 <= i < 8 && t.TransformPoint(Corners3(b)[i]).w <= 0.0
    ensures t.TransformBox(b).Some? ==> forall i :: 0 <= i < 8 ==>
      t.TransformPoint3(Corners3(b)[i]).Ok?
      && t.TransformBox(b).value.min.Le(t.TransformPoint3(Corners3(b)[i]).value)
      && t.TransformPoint3(Corners3(b)[i]).value.Le(t.TransformBox(b).value.max)
  {
    var items := CornerImages3(t, b);
    assert t.TransformBox(b) == match TryBounds3(items) { case Ok(bx) => Some(bx) case Err(_) => None };
    forall i | 0 <= i < 8 {
      ToPoint3Law(t.TransformPoint(Corners3(b)[i]));
    }
    FirstErrorNone(items);
    if forall j :: 0 <= j < 8 ==> items[j].Ok? {
      var ps := seq(8, j requires 0 <= j < 8 => items[j].value);
      TryBoundsLaws3(items, ps);
      BoundsLaws3(ps);
    }
  }

  /** The image of a point under a matrix that is diagonal apart from its translation row. */
  lemma DiagonalImage3(t: Transform3, px: real, py: real, pz: real, d1: real, d2: real, d3: real, t1: real, t2: real, t3: real)
    requires t.mat == Mat4(d1, 0.0, 0.0, 0.0, 0.0, d2, 0.0, 0.0, 0.0, 0.0, d3, 0.0, t1, t2, t3, 1.0)
    ensures t.TransformPoint3(Point3(px, py, pz)) == Ok(Point3(px * d1 + t1, py * d2 + t2, pz * d3 + t3))
  {
    assert t.TransformPoint(Point3(px, py, pz)) == HomogeneousVector(px * d1 + t1, py * d2 + t2, pz * d3 + t3, 1.0);
    UnitW(t.TransformPoint(Point3(px, py, pz)));
  }

  /** `lo` and `hi` land on -1 and 1 under `x * d + e` with `d = 2 / (hi - lo)` and `e = -(lo + hi) / (hi - lo)`. */
  lemma UnitRange(lo: real, hi: real, w: real, d: real, e: real)
    requires hi - lo != 0.0 && w == 1.0 / (hi - lo) && d == w + w && e == 0.0 - (lo + hi) * w
    ensures lo * d + e == -1.0 && hi * d + e == 1.0
  {
    assert (hi - lo) * w == 1.0;
    assert lo * d + e == 0.0 - (hi - lo) * w;
    assert hi * d + e == (hi - lo) * w;
  }

  /** `near` and `far` land on 0 and 1 under `z * r + e` with `r = 1 / (far - near)` and `e = -r * near`. */
  lemma DepthRange(near: real, far: real, r: real, e: real)
    requires far - near != 0.0 && r == 1.0 / (far - near) && e == 0.0 - r * near
    ensures near * r + e == 0.0 && far * r + e == 1.0
  {
    assert (far - near) * r == 1.0;
  }

  /** `orthographic_lh` is invertible: its cached inverse is the inverse. */
  lemma OrthographicLhValid(left: real, right: real, bottom: real, top: real, near: real, far: real)
    requires right - left != 0.0 && top - bottom != 0.0 && far - near != 0.0
    ensures Transform3.OrthographicLh(left, right, bottom, top, near, far).Valid()
  {
    var m := Mat4(1.0 / (right - left) + 1.0 / (right - left), 0.0, 0.0, 0.0, 0.0, 1.0 / (top - bottom) + 1.0 / (top - bottom), 0.0, 0.0, 0.0, 0.0, 1.0 / (far - near), 0.0,
                      0.0 - (left + right) * (1.0 / (right - left)), 0.0 - (top + bottom) * (1.0 / (top - bottom)), 0.0 - 1.0 / (far - near) * near, 1.0);
    OrthographicInvertible(right - left, top - bottom, far - near, 1.0 / (right - left), 1.0 / (top - bottom), 1.0 / (far - near), m);
    assert Transform3.OrthographicLh(left, right, bottom, top, near, far) == Transform3.New(m);
    New3Valid(m);
  }

  /** The matrix `orthographic_lh` builds, entry by entry. */
  lemma OrthographicLhMatrix(left: real, right: real, bottom: real, top: real, near: real, far: real)
    requires right - left != 0.0 && top - bottom != 0.0 && far - near != 0.0
    ensures Transform3.OrthographicLh(left, right, bottom, top, near, far).mat ==
      Mat4(1.0 / (right - left) + 1.0 / (right - left), 0.0, 0.0, 0.0, 0.0, 1.0 / (top - bottom) + 1.0 / (top - bottom), 0.0, 0.0, 0.0, 0.0, 1.0 / (far - near), 0.0,
                      0.0 - (left + right) * (1.0 / (right - left)), 0.0 - (top + bottom) * (1.0 / (top - bottom)), 0.0 - 1.0 / (far - near) * near, 1.0)
  {
    var m := Mat4(1.0 / (right - left) + 1.0 / (right - left), 0.0, 0.0, 0.0, 0.0, 1.0 / (top - bottom) + 1.0 / (top - bottom), 0.0, 0.0, 0.0, 0.0, 1.0 / (far - near), 0.0,
                      0.0 - (left + right) * (1.0 / (right - left)), 0.0 - (top + bottom) * (1.0 / (top - bottom)), 0.0 - 1.0 / (far - near) * near, 1.0);
    assert Transform3.OrthographicLh(left, right, bottom, top, near, far) == Transform3.New(m);
  }

  /** The corner images, for any transform with the `orthographic_lh` matrix. */
  lemma OrthographicLhImages(t: Transform3, left: real, right: real, bottom: real, top: real, near: real, far: real)
    requires right - left != 0.0 && top - bottom != 0.0 && far - near != 0.0
    requires t.mat ==
      Mat4(1.0 / (right - left) + 1.0 / (right - left), 0.0, 0.0, 0.0, 0.0, 1.0 / (top - bottom) + 1.0 / (top - bottom), 0.0, 0.0, 0.0, 0.0, 1.0 / (far - near), 0.0,
                      0.0 - (left + right) * (1.0 / (right - left)), 0.0 - (top + bottom) * (1.0 / (top - bottom)), 0.0 - 1.0 / (far - near) * near, 1.0)
    ensures t.TransformPoint3(Point3(left, bottom, near)) == Ok(Point3(-1.0, -1.0, 0.0))
    ensures t.TransformPoint3(Point3(right, top, far)) == Ok(Point3(1.0, 1.0, 1.0))
  {
    OrthographicLhAtoms(t, left, right, bottom, top, near, far,
      1.0 / (right - left), 1.0 / (top - bottom), 1.0 / (far - near), 1.0 / (right - left) + 1.0 / (right - left), 1.0 / (top - bottom) + 1.0 / (top - bottom), 0.0 - (left + right) * (1.0 / (right - left)), 0.0 - (top + bottom) * (1.0 / (top - bottom)), 0.0 - 1.0 / (far - near) * near);
  }

  /** `orthographic_lh` maps the corner (left, bottom, near) to (-1, -1, 0) and the corner (right, top, far) to (1, 1, 1). */
  lemma OrthographicLhCorners(left: real, right: real, bottom: real, top: real, near: real, far: real)
    requires right - left != 0.0 && top - bottom != 0.0 && far - near != 0.0
    ensures Transform3.OrthographicLh(left, right, bottom, top, near, far).TransformPoint3(Point3(left, bottom, near)) == Ok(Point3(-1.0, -1.0, 0.0))
    ensures Transform3.OrthographicLh(left, right, bottom, top, near, far).TransformPoint3(Point3(right, top, far)) == Ok(Point3(1.0, 1.0, 1.0))
  {
    OrthographicLhMatrix(left, right, bottom, top, near, far);
    OrthographicLhImages(Transform3.OrthographicLh(left, right, bottom, top, near, far), left, right, bottom, top, near, far);
  }

  /** The corner images, with every intermediate quantity named. */
  lemma OrthographicLhAtoms(t: Transform3, left: real, right: real, bottom: real, top: real, near: real, far: real,
                             w: real, h: real, r: real, d1: real, d2: real, e1: real, e2: real, e3: real)
    requires right - left != 0.0 && top - bottom != 0.0 && far - near != 0.0
    requires w == 1.0 / (right - left) && h == 1.0 / (top - bottom) && r == 1.0 / (far - near)
    requires d1 == w + w && d2 == h + h && e1 == 0.0 - (left + right) * w && e2 == 0.0 - (top + bottom) * h && e3 == 0.0 - r * near
    requires t.mat == Mat4(d1, 0.0, 0.0, 0.0, 0.0, d2, 0.0, 0.0, 0.0, 0.0, r, 0.0, e1, e2, e3, 1.0)
    ensures t.TransformPoint3(Point3(left, bottom, near)) == Ok(Point3(-1.0, -1.0, 0.0))
    ensures t.TransformPoint3(Point3(right, top, far)) == Ok(Point3(1.0, 1.0, 1.0))
  {
    DiagonalImage3(t, left, bottom, near, d1, d2, r, e1, e2, e3);
    DiagonalImage3(t, right, top, far, d1, d2, r, e1, e2, e3);
    UnitRange(left, right, w, d1, e1);
    UnitRange(bottom, top, h, d2, e2);
    DepthRange(near, far, r, e3);
  }

  /** `orthographic_rh` is invertible: its cached inverse is the inverse. */
  lemma OrthographicRhValid(left: real, right: real, bottom: real, top: real, near: real, far: real)
    requires right - left != 0.0 && top - bottom != 0.0 && near - far != 0.0
    ensures Transform3.OrthographicRh(left, right, bottom, top, near, far).Valid()
  {
    var m := Mat4(1.0 / (right - left) + 1.0 / (right - left), 0.0, 0.0, 0.0, 0.0, 1.0 / (top - bottom) + 1.0 / (top - bottom), 0.0, 0.0, 0.0, 0.0, 1.0 / (near - far), 0.0,
                      0.0 - (left + right) * (1.0 / (right - left)), 0.0 - (top + bottom) * (1.0 / (top - bottom)), 1.0 / (near - far) * near, 1.0);
    OrthographicInvertible(right - left, top - bottom, near - far, 1.0 / (right - left), 1.0 / (top - bottom), 1.0 / (near - far), m);
    assert Transform3.OrthographicRh(left, right, bottom, top, near, far) == Transform3.New(m);
    New3Valid(m);
  }

  /** The matrix `orthographic_rh` builds, entry by entry. */
  lemma OrthographicRhMatrix(left: real, right: real, bottom: real, top: real, near: real, far: real)
    requires right - left != 0.0 && top - bottom != 0.0 && near - far != 0.0
    ensures Transform3.OrthographicRh(left, right, bottom, top, near, far).mat ==
      Mat4(1.0 / (right - left) + 1.0 / (right - left), 0.0, 0.0, 0.0, 0.0, 1.0 / (top - bottom) + 1.0 / (top - bottom), 0.0, 0.0, 0.0, 0.0, 1.0 / (near - far), 0.0,
                      0.0 - (left + right) * (1.0 / (right - left)), 0.0 - (top + bottom) * (1.0 / (top - bottom)), 1.0 / (near - far) * near, 1.0)
  {
    var m := Mat4(1.0 / (right - left) + 1.0 / (right - left), 0.0, 0.0, 0.0, 0.0, 1.0 / (top - bottom) + 1.0 / (top - bottom), 0.0, 0.0, 0.0, 0.0, 1.0 / (near - far), 0.0,
                      0.0 - (left + right) * (1.0 / (right - left)), 0.0 - (top + bottom) * (1.0 / (top - bottom)), 1.0 / (near - far) * near, 1.0);
    assert Transform3.OrthographicRh(left, right, bottom, top, near, far) == Transform3.New(m);
  }

  /** The corner images, for any transform with the `orthographic_rh` matrix. */
  lemma OrthographicRhImages(t: Transform3, left: real, right: real, bottom: real, top: real, near: real, far: real)
    requires right - left != 0.0 && top - bottom != 0.0 && near - far != 0.0
    requires t.mat ==
      Mat4(1.0 / (right - left) + 1.0 / (right - left), 0.0, 0.0, 0.0, 0.0, 1.0 / (top - bottom) + 1.0 / (top - bottom), 0.0, 0.0, 0.0, 0.0, 1.0 / (near - far), 0.0,
                      0.0 - (left + right) * (1.0 / (right - left)), 0.0 - (top + bottom) * (1.0 / (top - bottom)), 1.0 / (near - far) * near, 1.0)
    ensures t.TransformPoint3(Point3(left, bottom, -near)) == Ok(Point3(-1.0, -1.0, 0.0))
    ensures t.TransformPoint3(Point3(right, top, -far)) == Ok(Point3(1.0, 1.0, 1.0))
  {
    OrthographicRhAtoms(t, left, right, bottom, top, near, far, -near, -far,
      1.0 / (right - left), 1.0 / (top - bottom), 1.0 / (near - far), 1.0 / (right - left) + 1.0 / (right - left), 1.0 / (top - bottom) + 1.0 / (top - bottom), 0.0 - (left + right) * (1.0 / (right - left)), 0.0 - (top + bottom) * (1.0 / (top - bottom)), 1.0 / (near - far) * near);
  }

  /** `orthographic_rh` looks down -z: (left, bottom, -near) goes to (-1, -1, 0) and (right, top, -far) to (1, 1, 1). */
  lemma OrthographicRhCorners(left: real, right: real, bottom: real, top: real, near: real, far: real)
    requires right - left != 0.0 && top - bottom != 0.0 && near - far != 0.0
    ensures Transform3.OrthographicRh(left, right, bottom, top, near, far).TransformPoint3(Point3(left, bottom, -near)) == Ok(Point3(-1.0, -1.0, 0.0))
    ensures Transform3.OrthographicRh(left, right, bottom, top, near, far).TransformPoint3(Point3(right, top, -far)) == Ok(Point3(1.0, 1.0, 1.0))
  {
    OrthographicRhMatrix(left, right, bottom, top, near, far);
    OrthographicRhImages(Transform3.OrthographicRh(left, right, bottom, top, near, far), left, right, bottom, top, near, far);
  }

  /** The corner images, with every intermediate quantity named. */
  lemma OrthographicRhAtoms(t: Transform3, left: real, right: real, bottom: real, top: real, near: real, far: real, zn: real, zf: real,
                             w: real, h: real, r: real, d1: real, d2: real, e1: real, e2: real, e3: real)
    requires right - left != 0.0 && top - bottom != 0.0 && near - far != 0.0 && zn == -near && zf == -far
    requires w == 1.0 / (right - left) && h == 1.0 / (top - bottom) && r == 1.0 / (near - far)
    requires d1 == w + w && d2 == h + h && e1 == 0.0 - (left + right) * w && e2 == 0.0 - (top + bottom) * h && e3 == r * near
    requires t.mat == Mat4(d1, 0.0, 0.0, 0.0, 0.0, d2, 0.0, 0.0, 0.0, 0.0, r, 0.0, e1, e2, e3, 1.0)
    ensures t.TransformPoint3(Point3(left, bottom, zn)) == Ok(Point3(-1.0, -1.0, 0.0))
    ensures t.TransformPoint3(Point3(right, top, zf)) == Ok(Point3(1.0, 1.0, 1.0))
  {
    DiagonalImage3(t, left, bottom, zn, d1, d2, r, e1, e2, e3);
    DiagonalImage3(t, right, top, zf, d1, d2, r, e1, e2, e3);
    UnitRange(left, right, w, d1, e1);
    UnitRange(bottom, top, h, d2, e2);
    DepthRangeRh(near, far, zn, zf, r, e3);
  }

  lemma DepthRangeRh(near: real, far: real, zn: real, zf: real, r: real, e: real)
    requires near - far != 0.0 && zn == -near && zf == -far && r == 1.0 / (near - far) && e == r * near
    ensures zn * r + e == 0.0 && zf * r + e == 1.0
  {
    assert (near - far) * r == 1.0;
  }
}
