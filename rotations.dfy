/**
 * Rotations of rotation.rs: a planar rotation by an angle, and a spatial
 * rotation stored as the quaternion `a + i*I + j*J + k*K`.
 */
module Rotations {
  import Num
  import opened Expansions
  import opened Units
  import opened Vectors
  import opened Points
  import opened Sizes
  import opened Boxes

  datatype Rotation2 = Rotation2(angle: Angle)
  {
    static function New(angle: Angle): Rotation2 { Rotation2(angle) }

    static function Zero(): Rotation2 { New(Angle.Zero()) }

    /** `identity()`, which is `zero()`. */
    static function Identity(): Rotation2 { Zero() }

    function IsIdentity(): bool { angle == Angle.Zero() }

    function Inverse(): Rotation2 { New(angle.Neg()) }

    function TransformSize(s: Size2): Size2 { Size2(s.x, s.y) }
  }

  /** The tolerance `1e-5` that `is_normalized` allows on the squared norm. */
  const NormalizedEpsilon: real := 0.00001

  datatype Rotation3 = Rotation3(a: real, i: real, j: real, k: real)
  {
    /** Builds the quaternion as given, without normalizing it. */
    static function NewUnchecked(a: real, i: real, j: real, k: real): Rotation3 { Rotation3(a, i, j, k) }

    function VectorPart(): Vector3 { Vector3(i, j, k) }

    function NormSquared(): real { a * a + i * i + j * j + k * k }

    /** The squared norm is within `1e-5` of one. */
    function IsNormalized(): bool { Num.RealApproxEqEps(NormSquared(), 1.0, NormalizedEpsilon) }

    /** This rotation followed by `other`: the Hamilton product `other * this`. */
    function Then(other: Rotation3): Rotation3
      requires IsNormalized() && other.IsNormalized()
    {
      Product(other, this)
    }

    static function Identity(): Rotation3 { NewUnchecked(1.0, 0.0, 0.0, 0.0) }

    function IsIdentity(): bool { a == 1.0 && i == 0.0 && j == 0.0 && k == 0.0 }

    /** The conjugate, which inverts a unit quaternion. */
    function Inverse(): Rotation3 { NewUnchecked(a, -i, -j, -k) }

    /** The expanded form of `q p q*`, exact for unit quaternions. */
    function TransformPoint(p: Point3): Point3
    {
      var two := 2.0;
      var cross := VectorPart().Cross(p.ToVector()).Mul(two);
      Point3(
        p.x + a * cross.x + j * cross.z - k * cross.y,
        p.y + a * cross.y + k * cross.x - i * cross.z,
        p.z + a * cross.z + i * cross.y - j * cross.x)
    }

    function TransformVector(v: Vector3): Vector3 { TransformPoint(Point3.FromVector(v)).ToVector() }

    function TransformNormal(n: Vector3): Vector3 { TransformVector(n) }

    /** Rotates the two corners only; the result is not refitted around the rotated box. */
    function TransformBox(b: Box3): Box3 { Box3(TransformPoint(b.min), TransformPoint(b.max)) }

    function TransformSize(s: Size3): Size3 { Size3(s.x, s.y, s.z) }

    function Add(other: Rotation3): Rotation3 { NewUnchecked(a + other.a, i + other.i, j + other.j, k + other.k) }

    function Sub(other: Rotation3): Rotation3 { NewUnchecked(a - other.a, i - other.i, j - other.j, k - other.k) }

    function Mul(factor: real): Rotation3 { NewUnchecked(a * factor, i * factor, j * factor, k * factor) }

    /** Componentwise closeness to `other` or to `-other`, which denotes the same rotation. */
    function ApproxEqEps(other: Rotation3, eps: real): bool
    {
      (Num.RealApproxEqEps(a, other.a, eps) && Num.RealApproxEqEps(i, other.i, eps)
        && Num.RealApproxEqEps(j, other.j, eps) && Num.RealApproxEqEps(k, other.k, eps))
      || (Num.RealApproxEqEps(a, -other.a, eps) && Num.RealApproxEqEps(i, -other.i, eps)
        && Num.RealApproxEqEps(j, -other.j, eps) && Num.RealApproxEqEps(k, -other.k, eps))
    }
  }

  /** The Hamilton product `l * r`, the body of `then` with `l = other` and `r = self`. */
  function Product(l: Rotation3, r: Rotation3): Rotation3
  {
    Rotation3.NewUnchecked(
      l.a * r.a - l.i * r.i - l.j * r.j - l.k * r.k,
      l.i * r.a + l.a * r.i + l.j * r.k - l.k * r.j,
      l.j * r.a + l.a * r.j + l.k * r.i - l.i * r.k,
      l.k * r.a + l.a * r.k + l.i * r.j - l.j * r.i)
  }

  /** The pure quaternion `0 + v`. */
  function Pure(v: Vector3): Rotation3 { Rotation3(0.0, v.x, v.y, v.z) }

  /** The algebraic rotation `q v q*` that the point transform expands. */
  function Sandwich(q: Rotation3, v: Vector3): Rotation3 { Product(Product(q, Pure(v)), q.Inverse()) }

  // Rotation2

  /** The identity is the zero angle, `is_identity` means exactly angle zero, and the inverse negates the angle. */
  lemma Rotation2Laws(r: Rotation2, s: Size2)
    ensures Rotation2.Identity().IsIdentity() && (r.IsIdentity() <==> r == Rotation2.Identity())
    ensures r.Inverse().angle.Radians() == -r.angle.Radians() && r.Inverse().Inverse() == r
    ensures r.Inverse().angle.Add(r.angle) == Angle.Zero()
    ensures r.TransformSize(s) == s
  {
  }

  // Identity, inverse and norm of Rotation3

  /** `identity()` is `(1, 0, 0, 0)`, a unit quaternion, and `is_identity` holds for exactly these components. */
  lemma IdentityLaws(q: Rotation3)
    ensures q.IsIdentity() <==> q == Rotation3(1.0, 0.0, 0.0, 0.0)
    ensures Rotation3.Identity().IsIdentity() && Rotation3.Identity().NormSquared() == 1.0
  {
  }

  /** The identity is neutral on both sides of the product. */
  lemma IdentityNeutral(q: Rotation3)
    ensures Product(Rotation3.Identity(), q) == q && Product(q, Rotation3.Identity()) == q
  {
  }

  /** The conjugate is an involution that keeps the norm and negates the vector part. */
  lemma InverseLaws(q: Rotation3)
    ensures q.Inverse().Inverse() == q
    ensures q.Inverse().NormSquared() == q.NormSquared()
    ensures q.Inverse().a == q.a && q.Inverse().VectorPart() == q.VectorPart().Neg()
  {
  }

  /** A quaternion times its conjugate, in either order, is the real number `norm_squared`. */
  lemma ConjugateProduct(q: Rotation3)
    ensures Product(q, q.Inverse()) == Rotation3(q.NormSquared(), 0.0, 0.0, 0.0)
    ensures Product(q.Inverse(), q) == Rotation3(q.NormSquared(), 0.0, 0.0, 0.0)
  {
  }

  /** Following a unit rotation by its inverse gives the identity. */
  lemma ThenInverse(q: Rotation3)
    requires q.NormSquared() == 1.0
    ensures q.IsNormalized() && q.Inverse().IsNormalized()
    ensures q.Then(q.Inverse()) == Rotation3.Identity() && q.Inverse().Then(q) == Rotation3.Identity()
  {
    InverseLaws(q);
    ConjugateProduct(q);
  }

  /** The four parts of the Hamilton product. */
  lemma ProductParts(l: Rotation3, r: Rotation3)
    ensures Product(l, r).a == l.a * r.a - l.i * r.i - l.j * r.j - l.k * r.k
    ensures Product(l, r).i == l.i * r.a + l.a * r.i + l.j * r.k - l.k * r.j
    ensures Product(l, r).j == l.j * r.a + l.a * r.j + l.k * r.i - l.i * r.k
    ensures Product(l, r).k == l.k * r.a + l.a * r.k + l.i * r.j - l.j * r.i
  {
  }

  /** Quaternions with equal parts are equal. */
  lemma SameParts(x: Rotation3, y: Rotation3)
    requires x.a == y.a && x.i == y.i && x.j == y.j && x.k == y.k
    ensures x == y
  {
  }

  /** The conjugate of a product is the product of the conjugates in reverse order. */
  lemma InverseOfProduct(p: Rotation3, q: Rotation3)
    ensures Product(p, q).Inverse() == Product(q.Inverse(), p.Inverse())
  {
    ProductParts(p, q);
    ProductParts(q.Inverse(), p.Inverse());
    SameParts(Product(p, q).Inverse(), Product(q.Inverse(), p.Inverse()));
  }

  /** The squared norm is multiplicative. */
  lemma NormMultiplicative(p: Rotation3, q: Rotation3)
    ensures Product(p, q).NormSquared() == p.NormSquared() * q.NormSquared()
  {
    ProductParts(p, q);
    NormOfParts(p, q, Product(p, q));
  }

  /** The product of two squared norms, with both norms written out. */
  lemma NormsProduct(p: Rotation3, q: Rotation3)
    ensures p.NormSquared() * q.NormSquared() ==
            (p.a * p.a + p.i * p.i + p.j * p.j + p.k * p.k) * (q.a * q.a + q.i * q.i + q.j * q.j + q.k * q.k)
  {
  }

  /** A quaternion with the parts of the product of `p` and `q` has the product of their squared norms. */
  lemma NormOfParts(p: Rotation3, q: Rotation3, m: Rotation3)
    requires m.a == p.a * q.a - p.i * q.i - p.j * q.j - p.k * q.k
    requires m.i == p.i * q.a + p.a * q.i + p.j * q.k - p.k * q.j
    requires m.j == p.j * q.a + p.a * q.j + p.k * q.i - p.i * q.k
    requires m.k == p.k * q.a + p.a * q.k + p.i * q.j - p.j * q.i
    ensures m.NormSquared() == p.NormSquared() * q.NormSquared()
  {
    NormExpands(m);
    NormsProduct(p, q);
    FourSquareRaw(p.a, p.i, p.j, p.k, q.a, q.i, q.j, q.k, m.a, m.i, m.j, m.k);
  }

  /** Composing exact unit quaternions gives an exact unit quaternion, which passes `is_normalized`. */
  lemma UnitsClosed(p: Rotation3, q: Rotation3)
    requires p.NormSquared() == 1.0 && q.NormSquared() == 1.0
    ensures p.IsNormalized() && q.IsNormalized()
    ensures p.Then(q).NormSquared() == 1.0 && p.Then(q).IsNormalized()
  {
    NormMultiplicative(q, p);
  }

  /**
   * The tolerance of `is_normalized` is not closed under `then`: the scalar
   * quaternion 1.000004 has `norm_squared` about 1.000008 and passes, but
   * composing it with itself gives `norm_squared` about 1.000016, which fails.
   */
  lemma ToleranceNotClosed()
    ensures Rotation3(1.000004, 0.0, 0.0, 0.0).IsNormalized()
    ensures !Rotation3(1.000004, 0.0, 0.0, 0.0).Then(Rotation3(1.000004, 0.0, 0.0, 0.0)).IsNormalized()
  {
    var p := Rotation3(1.000004, 0.0, 0.0, 0.0);
    assert Product(p, p) == Rotation3(1.000004 * 1.000004, 0.0, 0.0, 0.0);
  }

  // Associativity

  /** The Hamilton product is associative. */
  lemma ProductAssociative(p: Rotation3, q: Rotation3, r: Rotation3)
    ensures Product(Product(p, q), r) == Product(p, Product(q, r))
  {
    ProductAssociativeA(p, q, r);
    ProductAssociativeI(p, q, r);
    ProductAssociativeJ(p, q, r);
    ProductAssociativeK(p, q, r);
    SameParts(Product(Product(p, q), r), Product(p, Product(q, r)));
  }

  lemma ProductAssociativeA(p: Rotation3, q: Rotation3, r: Rotation3)
    ensures Product(Product(p, q), r).a == Product(p, Product(q, r)).a
  {
    var m, n := Product(p, q), Product(q, r);
    ProductParts(p, q);
    ProductParts(q, r);
    ProductParts(m, r);
    ProductParts(p, n);
    Expansions.AssociativeRawA(p.a, p.i, p.j, p.k, q.a, q.i, q.j, q.k, r.a, r.i, r.j, r.k, m.a, m.i, m.j, m.k, n.a, n.i, n.j, n.k);
  }

  lemma ProductAssociativeI(p: Rotation3, q: Rotation3, r: Rotation3)
    ensures Product(Product(p, q), r).i == Product(p, Product(q, r)).i
  {
    var m, n := Product(p, q), Product(q, r);
    ProductParts(p, q);
    ProductParts(q, r);
    ProductParts(m, r);
    ProductParts(p, n);
    Expansions.AssociativeRawI(p.a, p.i, p.j, p.k, q.a, q.i, q.j, q.k, r.a, r.i, r.j, r.k, m.a, m.i, m.j, m.k, n.a, n.i, n.j, n.k);
  }

  lemma ProductAssociativeJ(p: Rotation3, q: Rotation3, r: Rotation3)
    ensures Product(Product(p, q), r).j == Product(p, Product(q, r)).j
  {
    var m, n := Product(p, q), Product(q, r);
    ProductParts(p, q);
    ProductParts(q, r);
    ProductParts(m, r);
    ProductParts(p, n);
    Expansions.AssociativeRawJ(p.a, p.i, p.j, p.k, q.a, q.i, q.j, q.k, r.a, r.i, r.j, r.k, m.a, m.i, m.j, m.k, n.a, n.i, n.j, n.k);
  }

  lemma ProductAssociativeK(p: Rotation3, q: Rotation3, r: Rotation3)
    ensures Product(Product(p, q), r).k == Product(p, Product(q, r)).k
  {
    var m, n := Product(p, q), Product(q, r);
    ProductParts(p, q);
    ProductParts(q, r);
    ProductParts(m, r);
    ProductParts(p, n);
    Expansions.AssociativeRawK(p.a, p.i, p.j, p.k, q.a, q.i, q.j, q.k, r.a, r.i, r.j, r.k, m.a, m.i, m.j, m.k, n.a, n.i, n.j, n.k);
  }

  /** `then` is associative on unit quaternions. */
  lemma ThenAssociative(p: Rotation3, q: Rotation3, r: Rotation3)
    requires p.NormSquared() == 1.0 && q.NormSquared() == 1.0 && r.NormSquared() == 1.0
    ensures p.IsNormalized() && q.IsNormalized() && r.IsNormalized()
    ensures p.Then(q).IsNormalized()
    ensures q.Then(r).IsNormalized()
    ensures p.Then(q).Then(r) == p.Then(q.Then(r))
  {
    UnitsClosed(p, q);
    UnitsClosed(q, r);
    ProductAssociative(r, q, p);
  }

  // The point transform is the sandwich product

  lemma TransformPointX(q: Rotation3, p: Point3)
    ensures var c := q.VectorPart().Cross(p.ToVector()).Mul(2.0);
      q.TransformPoint(p).x == p.x + q.a * c.x + q.j * c.z - q.k * c.y
  {
  }

  lemma TransformPointY(q: Rotation3, p: Point3)
    ensures var c := q.VectorPart().Cross(p.ToVector()).Mul(2.0);
      q.TransformPoint(p).y == p.y + q.a * c.y + q.k * c.x - q.i * c.z
  {
  }

  lemma TransformPointZ(q: Rotation3, p: Point3)
    ensures var c := q.VectorPart().Cross(p.ToVector()).Mul(2.0);
      q.TransformPoint(p).z == p.z + q.a * c.z + q.i * c.y - q.j * c.x
  {
  }

  lemma TransformVectorX(q: Rotation3, v: Vector3)
    ensures var c := q.VectorPart().Cross(v).Mul(2.0);
      q.TransformVector(v).x == v.x + q.a * c.x + q.j * c.z - q.k * c.y
  {
    TransformPointX(q, Point3.FromVector(v));
    assert Point3.FromVector(v).ToVector() == v;
  }

  lemma TransformVectorY(q: Rotation3, v: Vector3)
    ensures var c := q.VectorPart().Cross(v).Mul(2.0);
      q.TransformVector(v).y == v.y + q.a * c.y + q.k * c.x - q.i * c.z
  {
    TransformPointY(q, Point3.FromVector(v));
    assert Point3.FromVector(v).ToVector() == v;
  }

  lemma TransformVectorZ(q: Rotation3, v: Vector3)
    ensures var c := q.VectorPart().Cross(v).Mul(2.0);
      q.TransformVector(v).z == v.z + q.a * c.z + q.i * c.y - q.j * c.x
  {
    TransformPointZ(q, Point3.FromVector(v));
    assert Point3.FromVector(v).ToVector() == v;
  }

  /** The parts of `q v` for a pure quaternion `v`. */
  lemma ProductWithPure(q: Rotation3, v: Vector3)
    ensures Expands(Product(q, Pure(v)).a, -(q.i * v.x) - q.j * v.y - q.k * v.z)
    ensures Expands(Product(q, Pure(v)).i, q.a * v.x + q.j * v.z - q.k * v.y)
    ensures Expands(Product(q, Pure(v)).j, q.a * v.y + q.k * v.x - q.i * v.z)
    ensures Expands(Product(q, Pure(v)).k, q.a * v.z + q.i * v.y - q.j * v.x)
  {
  }

  /** The parts of `m q*`. */
  lemma ProductWithConjugate(m: Rotation3, q: Rotation3)
    ensures Product(m, q.Inverse()).a == m.a * q.a + m.i * q.i + m.j * q.j + m.k * q.k
    ensures Product(m, q.Inverse()).i == m.i * q.a - m.a * q.i - m.j * q.k + m.k * q.j
    ensures Product(m, q.Inverse()).j == m.j * q.a - m.a * q.j - m.k * q.i + m.i * q.k
    ensures Product(m, q.Inverse()).k == m.k * q.a - m.a * q.k - m.i * q.j + m.j * q.i
  {
  }

  /** The doubled cross product `2 (u × v)` of the point transform, coordinate by coordinate. */
  lemma DoubledCross(q: Rotation3, v: Vector3)
    ensures Expands(q.VectorPart().Cross(v).Mul(2.0).x, (q.j * v.z - q.k * v.y) * 2.0)
    ensures Expands(q.VectorPart().Cross(v).Mul(2.0).y, (q.k * v.x - q.i * v.z) * 2.0)
    ensures Expands(q.VectorPart().Cross(v).Mul(2.0).z, (q.i * v.y - q.j * v.x) * 2.0)
  {
  }

  lemma NormExpands(q: Rotation3)
    ensures Expands(q.NormSquared(), q.a * q.a + q.i * q.i + q.j * q.j + q.k * q.k)
  {
  }

  /** The scalar part of `(q v) q*` over the components of `q` and `v`. */
  lemma SandwichBridgeA(q: Rotation3, v: Vector3, ma: real, mi: real, mj: real, mk: real, cx: real, cy: real, cz: real, n: real)
    requires Expands(ma, -(q.i * v.x) - q.j * v.y - q.k * v.z) && Expands(mi, q.a * v.x + q.j * v.z - q.k * v.y)
    requires Expands(mj, q.a * v.y + q.k * v.x - q.i * v.z) && Expands(mk, q.a * v.z + q.i * v.y - q.j * v.x)
    requires Expands(cx, (q.j * v.z - q.k * v.y) * 2.0) && Expands(cy, (q.k * v.x - q.i * v.z) * 2.0) && Expands(cz, (q.i * v.y - q.j * v.x) * 2.0)
    requires Expands(n, q.a * q.a + q.i * q.i + q.j * q.j + q.k * q.k)
    ensures ma * q.a + mi * q.i + mj * q.j + mk * q.k == 0.0
  {
    Expansions.SandwichRawA(q.a, q.i, q.j, q.k, v.x, v.y, v.z, ma, mi, mj, mk, cx, cy, cz, n);
  }

  /** The `i` part of `(q v) q*` over the components of `q` and `v`. */
  lemma SandwichBridgeI(q: Rotation3, v: Vector3, ma: real, mi: real, mj: real, mk: real, cx: real, cy: real, cz: real, n: real)
    requires Expands(ma, -(q.i * v.x) - q.j * v.y - q.k * v.z) && Expands(mi, q.a * v.x + q.j * v.z - q.k * v.y)
    requires Expands(mj, q.a * v.y + q.k * v.x - q.i * v.z) && Expands(mk, q.a * v.z + q.i * v.y - q.j * v.x)
    requires Expands(cx, (q.j * v.z - q.k * v.y) * 2.0) && Expands(cy, (q.k * v.x - q.i * v.z) * 2.0) && Expands(cz, (q.i * v.y - q.j * v.x) * 2.0)
    requires Expands(n, q.a * q.a + q.i * q.i + q.j * q.j + q.k * q.k)
    ensures mi * q.a - ma * q.i - mj * q.k + mk * q.j == v.x + q.a * cx + q.j * cz - q.k * cy + v.x * n - v.x
  {
    Expansions.SandwichRawI(q.a, q.i, q.j, q.k, v.x, v.y, v.z, ma, mi, mj, mk, cx, cy, cz, n);
  }

  /** The `j` part of `(q v) q*` over the components of `q` and `v`. */
  lemma SandwichBridgeJ(q: Rotation3, v: Vector3, ma: real, mi: real, mj: real, mk: real, cx: real, cy: real, cz: real, n: real)
    requires Expands(ma, -(q.i * v.x) - q.j * v.y - q.k * v.z) && Expands(mi, q.a * v.x + q.j * v.z - q.k * v.y)
    requires Expands(mj, q.a * v.y + q.k * v.x - q.i * v.z) && Expands(mk, q.a * v.z + q.i * v.y - q.j * v.x)
    requires Expands(cx, (q.j * v.z - q.k * v.y) * 2.0) && Expands(cy, (q.k * v.x - q.i * v.z) * 2.0) && Expands(cz, (q.i * v.y - q.j * v.x) * 2.0)
    requires Expands(n, q.a * q.a + q.i * q.i + q.j * q.j + q.k * q.k)
    ensures mj * q.a - ma * q.j - mk * q.i + mi * q.k == v.y + q.a * cy + q.k * cx - q.i * cz + v.y * n - v.y
  {
    Expansions.SandwichRawJ(q.a, q.i, q.j, q.k, v.x, v.y, v.z, ma, mi, mj, mk, cx, cy, cz, n);
  }

  /** The `k` part of `(q v) q*` over the components of `q` and `v`. */
  lemma SandwichBridgeK(q: Rotation3, v: Vector3, ma: real, mi: real, mj: real, mk: real, cx: real, cy: real, cz: real, n: real)
    requires Expands(ma, -(q.i * v.x) - q.j * v.y - q.k * v.z) && Expands(mi, q.a * v.x + q.j * v.z - q.k * v.y)
    requires Expands(mj, q.a * v.y + q.k * v.x - q.i * v.z) && Expands(mk, q.a * v.z + q.i * v.y - q.j * v.x)
    requires Expands(cx, (q.j * v.z - q.k * v.y) * 2.0) && Expands(cy, (q.k * v.x - q.i * v.z) * 2.0) && Expands(cz, (q.i * v.y - q.j * v.x) * 2.0)
    requires Expands(n, q.a * q.a + q.i * q.i + q.j * q.j + q.k * q.k)
    ensures mk * q.a - ma * q.k - mi * q.j + mj * q.i == v.z + q.a * cz + q.i * cy - q.j * cx + v.z * n - v.z
  {
    Expansions.SandwichRawK(q.a, q.i, q.j, q.k, v.x, v.y, v.z, ma, mi, mj, mk, cx, cy, cz, n);
  }

  /** The scalar part of `q v q*` is zero. */
  lemma SandwichA(q: Rotation3, v: Vector3)
    ensures Sandwich(q, v).a == 0.0
  {
    var m := Product(q, Pure(v));
    var c := q.VectorPart().Cross(v).Mul(2.0);
    ProductWithPure(q, v);
    ProductWithConjugate(m, q);
    DoubledCross(q, v);
    NormExpands(q);
    SandwichBridgeA(q, v, m.a, m.i, m.j, m.k, c.x, c.y, c.z, q.NormSquared());
  }

  lemma SandwichI(q: Rotation3, v: Vector3)
    ensures Sandwich(q, v).i == q.TransformVector(v).x + v.x * q.NormSquared() - v.x
  {
    var m := Product(q, Pure(v));
    var c := q.VectorPart().Cross(v).Mul(2.0);
    ProductWithPure(q, v);
    ProductWithConjugate(m, q);
    DoubledCross(q, v);
    NormExpands(q);
    TransformVectorX(q, v);
    SandwichBridgeI(q, v, m.a, m.i, m.j, m.k, c.x, c.y, c.z, q.NormSquared());
  }

  lemma SandwichJ(q: Rotation3, v: Vector3)
    ensures Sandwich(q, v).j == q.TransformVector(v).y + v.y * q.NormSquared() - v.y
  {
    var m := Product(q, Pure(v));
    var c := q.VectorPart().Cross(v).Mul(2.0);
    ProductWithPure(q, v);
    ProductWithConjugate(m, q);
    DoubledCross(q, v);
    NormExpands(q);
    TransformVectorY(q, v);
    SandwichBridgeJ(q, v, m.a, m.i, m.j, m.k, c.x, c.y, c.z, q.NormSquared());
  }

  lemma SandwichK(q: Rotation3, v: Vector3)
    ensures Sandwich(q, v).k == q.TransformVector(v).z + v.z * q.NormSquared() - v.z
  {
    var m := Product(q, Pure(v));
    var c := q.VectorPart().Cross(v).Mul(2.0);
    ProductWithPure(q, v);
    ProductWithConjugate(m, q);
    DoubledCross(q, v);
    NormExpands(q);
    TransformVectorZ(q, v);
    SandwichBridgeK(q, v, m.a, m.i, m.j, m.k, c.x, c.y, c.z, q.NormSquared());
  }

  /**
   * `q v q*` is a pure quaternion whose vector part is the expanded point
   * transform plus `(|q|² - 1) v`, so the expansion is exact for unit quaternions.
   */
  lemma SandwichFormula(q: Rotation3, v: Vector3)
    ensures Sandwich(q, v) == Pure(q.TransformVector(v).Add(v.Mul(q.NormSquared())).Sub(v))
  {
    SandwichA(q, v);
    SandwichI(q, v);
    SandwichJ(q, v);
    SandwichK(q, v);
    SameParts(Sandwich(q, v), Pure(q.TransformVector(v).Add(v.Mul(q.NormSquared())).Sub(v)));
  }

  lemma SandwichUnit(q: Rotation3, v: Vector3)
    requires q.NormSquared() == 1.0
    ensures Sandwich(q, v) == Pure(q.TransformVector(v))
  {
    SandwichFormula(q, v);
    assert v.Mul(q.NormSquared()) == v;
  }

  /** Points, vectors and normals are rotated by the same formula. */
  lemma PointsAndVectors(q: Rotation3, p: Point3, n: Vector3)
    ensures q.TransformPoint(p) == Point3.FromVector(q.TransformVector(p.ToVector()))
    ensures q.TransformNormal(n) == q.TransformVector(n)
  {
    assert Point3.FromVector(p.ToVector()) == p;
  }

  /** The identity moves no point and no vector. */
  lemma IdentityMovesNothing(p: Point3, v: Vector3)
    ensures Rotation3.Identity().TransformVector(v) == v
    ensures Rotation3.Identity().TransformPoint(p) == p
  {
    var id := Rotation3.Identity();
    IdentityLaws(id);
    assert id.Inverse() == id;
    IdentityNeutral(Pure(v));
    SandwichUnit(id, v);
    IdentityMovesVector(p.ToVector());
    PointsAndVectors(id, p, v);
  }

  lemma IdentityMovesVector(v: Vector3)
    ensures Rotation3.Identity().TransformVector(v) == v
  {
    var id := Rotation3.Identity();
    IdentityLaws(id);
    assert id.Inverse() == id;
    IdentityNeutral(Pure(v));
    SandwichUnit(id, v);
  }

  /** For unit quaternions, `p.then(q)` rotates vectors by `p` first and then by `q`. */
  lemma ThenComposesVectors(p: Rotation3, q: Rotation3, v: Vector3)
    requires p.NormSquared() == 1.0 && q.NormSquared() == 1.0
    ensures p.IsNormalized() && q.IsNormalized()
    ensures p.Then(q).TransformVector(v) == q.TransformVector(p.TransformVector(v))
  {
    UnitsClosed(p, q);
    var r := p.Then(q);
    var w := p.TransformVector(v);
    var x := Product(p, Pure(v));
    SandwichUnit(r, v);
    SandwichUnit(p, v);
    SandwichUnit(q, w);
    InverseOfProduct(q, p);
    ProductAssociative(q, p, Pure(v));
    ProductAssociative(q, x, Product(p.Inverse(), q.Inverse()));
    ProductAssociative(x, p.Inverse(), q.Inverse());
    ProductAssociative(q, Pure(w), q.Inverse());
    assert Pure(r.TransformVector(v)) == Pure(q.TransformVector(w));
  }

  /** For unit quaternions, `p.then(q)` rotates points by `p` first and then by `q`. */
  lemma ThenComposesPoints(p: Rotation3, q: Rotation3, x: Point3)
    requires p.NormSquared() == 1.0 && q.NormSquared() == 1.0
    ensures p.IsNormalized() && q.IsNormalized()
    ensures p.Then(q).TransformPoint(x) == q.TransformPoint(p.TransformPoint(x))
  {
    ThenComposesVectors(p, q, x.ToVector());
    PointsAndVectors(p.Then(q), x, x.ToVector());
    PointsAndVectors(p, x, x.ToVector());
    PointsAndVectors(q, p.TransformPoint(x), x.ToVector());
    assert Point3.FromVector(p.TransformVector(x.ToVector())).ToVector() == p.TransformVector(x.ToVector());
  }

  lemma PureNorm(v: Vector3)
    ensures Pure(v).NormSquared() == v.LengthSquared()
  {
  }

  lemma UnitFactor(x: real, y: real)
    requires y == 1.0
    ensures x * y == x && y * x == x
  {
  }

  /** A unit quaternion keeps the squared length of vectors and the squared distance of points from the origin. */
  lemma LengthPreserved(q: Rotation3, v: Vector3, p: Point3)
    requires q.NormSquared() == 1.0
    ensures q.TransformVector(v).LengthSquared() == v.LengthSquared()
    ensures q.TransformPoint(p).ToVector().LengthSquared() == p.ToVector().LengthSquared()
  {
    VectorLengthPreserved(q, v);
    VectorLengthPreserved(q, p.ToVector());
    PointsAndVectors(q, p, v);
  }

  lemma VectorLengthPreserved(q: Rotation3, v: Vector3)
    requires q.NormSquared() == 1.0
    ensures q.TransformVector(v).LengthSquared() == v.LengthSquared()
  {
    var m := Product(q, Pure(v));
    SandwichUnit(q, v);
    NormMultiplicative(q, Pure(v));
    NormMultiplicative(m, q.Inverse());
    InverseLaws(q);
    PureNorm(v);
    PureNorm(q.TransformVector(v));
    UnitFactor(Pure(v).NormSquared(), q.NormSquared());
    UnitFactor(m.NormSquared(), q.Inverse().NormSquared());
  }

  // Sizes, boxes, equality up to sign and the private arithmetic

  /** Rotations return sizes unchanged. */
  lemma SizesUnchanged(r: Rotation2, q: Rotation3, s2: Size2, s3: Size3)
    ensures r.TransformSize(s2) == s2 && q.TransformSize(s3) == s3
  {
  }

  /**
   * Boxes are not refitted: the half turn `(0, 0, 0, 1)` about the z axis
   * maps the corners of any non-empty box to the corners of an empty one,
   * because it swaps the order of the x and y coordinates.
   */
  lemma BoxNotRefitted(b: Box3)
    ensures var r := Rotation3(0.0, 0.0, 0.0, 1.0).TransformBox(b);
      r == Box3(Point3(-b.min.x, -b.min.y, b.min.z), Point3(-b.max.x, -b.max.y, b.max.z))
      && (!b.IsEmpty() ==> r.IsEmpty())
  {
    HalfTurn(b.min);
    HalfTurn(b.max);
  }

  /** `(0, 0, 0, 1)` is the half turn about the z axis. */
  lemma HalfTurn(p: Point3)
    ensures Rotation3(0.0, 0.0, 0.0, 1.0).TransformPoint(p) == Point3(-p.x, -p.y, p.z)
  {
    var q := Rotation3(0.0, 0.0, 0.0, 1.0);
    TransformPointX(q, p);
    TransformPointY(q, p);
    TransformPointZ(q, p);
  }

  /**
   * `approx_eq_eps` is symmetric, needs a positive tolerance and accepts a
   * quaternion against itself and against its negation, which rotates alike.
   */
  lemma ApproxEqEpsLaws(p: Rotation3, q: Rotation3, eps: real)
    ensures p.ApproxEqEps(q, eps) <==> q.ApproxEqEps(p, eps)
    ensures eps <= 0.0 ==> !p.ApproxEqEps(q, eps)
    ensures eps > 0.0 ==> p.ApproxEqEps(p, eps) && p.ApproxEqEps(p.Mul(-1.0), eps)
  {
  }

  /** The private `add`, `sub` and `mul` behind `lerp` and `slerp` are the vector-space operations. */
  lemma ArithmeticLaws(p: Rotation3, q: Rotation3, f: real)
    ensures p.Add(q).Sub(q) == p && p.Sub(q).Add(q) == p && p.Add(q) == q.Add(p)
    ensures p.Mul(1.0) == p && p.Mul(-1.0).Mul(-1.0) == p
    ensures p.Add(q).Mul(f) == p.Mul(f).Add(q.Mul(f))
  {
    assert p.Mul(-1.0).Mul(-1.0) == p by {
      NegateTwice(p.a);
      NegateTwice(p.i);
      NegateTwice(p.j);
      NegateTwice(p.k);
    }
    MulDistributes(p, q, f);
  }

  /** `mul` distributes over `add`, part by part. */
  lemma MulDistributes(p: Rotation3, q: Rotation3, f: real)
    ensures p.Add(q).Mul(f) == p.Mul(f).Add(q.Mul(f))
  {
    Distributes(p.a, q.a, f);
    Distributes(p.i, q.i, f);
    Distributes(p.j, q.j, f);
    Distributes(p.k, q.k, f);
  }

  lemma NegateTwice(x: real)
    ensures x * -1.0 * -1.0 == x
  {
  }

  lemma Distributes(x: real, y: real, f: real)
    ensures (x + y) * f == x * f + y * f
  {
  }

  // around_axis

  /**
   * `around_axis` as the source writes it, with `n` the normalized axis and
   * `s`, `c` the sine and cosine of half the angle: the cosine is passed as
   * the last argument of `new_unchecked`, which is the `k` part, while the
   * scalar part receives `n.x * s`.
   */
  function AroundAxisAsWritten(n: Vector3, s: real, c: real): Rotation3
  {
    Rotation3.NewUnchecked(n.x * s, n.y * s, n.z * s, c)
  }

  /**
   * As written, the zero angle gives `(0, 0, 0, 1)`, a half turn about the z
   * axis, whatever the axis: it is not the identity and moves every point off
   * the z axis, `(1, 0, 0)` to `(-1, 0, 0)` for one.
   */
  lemma AroundAxisAsWrittenZeroAngle(n: Vector3, p: Point3)
    ensures AroundAxisAsWritten(n, 0.0, 1.0) == Rotation3(0.0, 0.0, 0.0, 1.0)
    ensures !AroundAxisAsWritten(n, 0.0, 1.0).IsIdentity()
    ensures AroundAxisAsWritten(n, 0.0, 1.0).TransformPoint(p) == Point3(-p.x, -p.y, p.z)
    ensures (p.x != 0.0 || p.y != 0.0) ==> AroundAxisAsWritten(n, 0.0, 1.0).TransformPoint(p) != p
  {
    HalfTurn(p);
  }

  /** The rotation about the normalized axis `n` with half-angle sine `s` and cosine `c`: scalar part `c`, vector part `s n`. */
  function AroundAxis(n: Vector3, s: real, c: real): Rotation3
  {
    Rotation3.NewUnchecked(c, n.x * s, n.y * s, n.z * s)
  }

  /** The zero angle gives the identity, about every axis. */
  lemma AroundAxisZeroAngle(n: Vector3)
    ensures AroundAxis(n, 0.0, 1.0) == Rotation3.Identity()
  {
  }

  /** A unit axis and `s² + c² = 1` give a unit quaternion, as `then` demands. */
  lemma AroundAxisUnit(n: Vector3, s: real, c: real)
    requires n.LengthSquared() == 1.0 && s * s + c * c == 1.0
    ensures AroundAxis(n, s, c).NormSquared() == 1.0 && AroundAxis(n, s, c).IsNormalized()
  {
    var q := AroundAxis(n, s, c);
    assert q.i * q.i + q.j * q.j + q.k * q.k == s * s * n.LengthSquared() by {
      Rearrange(n.x, s, n.x * s);
      assert q.i * q.i == s * s * (n.x * n.x);
      assert q.j * q.j == s * s * (n.y * n.y);
      assert q.k * q.k == s * s * (n.z * n.z);
    }
  }

  /** The axis itself is not moved. */
  lemma AroundAxisFixesAxis(n: Vector3, s: real, c: real)
    ensures AroundAxis(n, s, c).TransformVector(n) == n
  {
    var q := AroundAxis(n, s, c);
    assert q.VectorPart() == Vector3(n.x * s, n.y * s, n.z * s);
    CrossOfScaled(n, s);
    assert q.VectorPart().Cross(n).Mul(2.0) == Vector3(0.0, 0.0, 0.0);
    TransformVectorX(q, n);
    TransformVectorY(q, n);
    TransformVectorZ(q, n);
  }

  /** A vector is parallel to its multiples. */
  lemma CrossOfScaled(n: Vector3, s: real)
    ensures Vector3(n.x * s, n.y * s, n.z * s).Cross(n) == Vector3(0.0, 0.0, 0.0)
  {
    assert n.x * s * n.y == n.y * s * n.x && n.y * s * n.z == n.z * s * n.y && n.z * s * n.x == n.x * s * n.z;
  }

  /** A quarter turn about z, with `s = c = √½`, maps `(1, 0, 0)` to `(0, 1, 0)`. */
  lemma AroundAxisQuarterTurn(h: real)
    requires h * h == 0.5
    ensures AroundAxis(Vector3(0.0, 0.0, 1.0), h, h).TransformPoint(Point3(1.0, 0.0, 0.0)) == Point3(0.0, 1.0, 0.0)
  {
    var q := AroundAxis(Vector3(0.0, 0.0, 1.0), h, h);
    var p := Point3(1.0, 0.0, 0.0);
    assert q == Rotation3(h, 0.0, 0.0, h);
    assert q.VectorPart().Cross(p.ToVector()).Mul(2.0) == Vector3(0.0, 2.0 * h, 0.0);
    TransformPointX(q, p);
    TransformPointY(q, p);
    TransformPointZ(q, p);
  }
}
