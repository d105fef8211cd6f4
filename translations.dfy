/** Translations of translation.rs: they move points and leave directions and extents alone. */
module Translations {
  import opened Places
  import opened Vectors
  import opened Points
  import opened Sizes
  import opened Boxes

  datatype Translation2 = Translation2(x: real, y: real)
  {
    static function New(x: real, y: real): Translation2 { Translation2(x, y) }

    static function Splat(v: real): Translation2 { Translation2(v, v) }

    static function Zero(): Translation2 { Translation2(0.0, 0.0) }

    /** `From<Vector2>`. */
    static function FromVector(v: Vector2): Translation2 { Translation2(v.x, v.y) }

    function ToVector(): Vector2 { Vector2(x, y) }

    /** `identity()`, which is `zero()`. */
    static function Identity(): Translation2 { Zero() }

    function IsIdentity(): bool { x == 0.0 && y == 0.0 }

    function Inverse(): Translation2 { Translation2(-x, -y) }

    function TransformPoint(p: Point2): Point2 { Point2(p.x + x, p.y + y) }

    function TransformVector(v: Vector2): Vector2 { Vector2(v.x, v.y) }

    function TransformNormal(n: Vector2): Vector2 { Vector2(n.x, n.y) }

    function TransformBox(b: Box2): Box2 { Box2(TransformPoint(b.min), TransformPoint(b.max)) }

    function TransformSize(s: Size2): Size2 { Size2(s.x, s.y) }

    /** `Translation2<A, B> + Translation2<B, C>`: first this translation, then `rhs`. */
    function Add(rhs: Translation2): Translation2 { Translation2(x + rhs.x, y + rhs.y) }

    function Sub(rhs: Translation2): Translation2 { Translation2(x - rhs.x, y - rhs.y) }
  }

  datatype Translation3 = Translation3(x: real, y: real, z: real)
  {
    static function New(x: real, y: real, z: real): Translation3 { Translation3(x, y, z) }

    static function Splat(v: real): Translation3 { Translation3(v, v, v) }

    static function Zero(): Translation3 { Translation3(0.0, 0.0, 0.0) }

    static function FromVector(v: Vector3): Translation3 { Translation3(v.x, v.y, v.z) }

    function ToVector(): Vector3 { Vector3(x, y, z) }

    static function Identity(): Translation3 { Zero() }

    function IsIdentity(): bool { x == 0.0 && y == 0.0 && z == 0.0 }

    function Inverse(): Translation3 { Translation3(-x, -y, -z) }

    function TransformPoint(p: Point3): Point3 { Point3(p.x + x, p.y + y, p.z + z) }

    function TransformVector(v: Vector3): Vector3 { Vector3(v.x, v.y, v.z) }

    function TransformNormal(n: Vector3): Vector3 { Vector3(n.x, n.y, n.z) }

    function TransformBox(b: Box3): Box3 { Box3(TransformPoint(b.min), TransformPoint(b.max)) }

    function TransformSize(s: Size3): Size3 { Size3(s.x, s.y, s.z) }

    function Add(rhs: Translation3): Translation3 { Translation3(x + rhs.x, y + rhs.y, z + rhs.z) }

    function Sub(rhs: Translation3): Translation3 { Translation3(x - rhs.x, y - rhs.y, z - rhs.z) }
  }

  lemma Constructors2(x: real, y: real, v: Vector2, t: Translation2)
    ensures Translation2.New(x, y) == Translation2(x, y) && Translation2.Splat(x) == Translation2(x, x)
    ensures Translation2.FromVector(v).ToVector() == v && Translation2.FromVector(t.ToVector()) == t
  {
  }

  lemma Constructors3(x: real, y: real, z: real, v: Vector3, t: Translation3)
    ensures Translation3.New(x, y, z) == Translation3(x, y, z) && Translation3.Splat(x) == Translation3(x, x, x)
    ensures Translation3.FromVector(v).ToVector() == v && Translation3.FromVector(t.ToVector()) == t
  {
  }

  /** `is_identity` holds exactly for the zero translation, which moves nothing. */
  lemma IdentityLaws2(t: Translation2, p: Point2)
    ensures t.IsIdentity() <==> t == Translation2.Identity()
    ensures Translation2.Identity().TransformPoint(p) == p
  {
  }

  lemma IdentityLaws3(t: Translation3, p: Point3)
    ensures t.IsIdentity() <==> t == Translation3.Identity()
    ensures Translation3.Identity().TransformPoint(p) == p
  {
  }

  /** The inverse moves every point back, and a translation plus its inverse is the identity. */
  lemma InverseLaws2(t: Translation2, p: Point2)
    ensures t.Inverse().TransformPoint(t.TransformPoint(p)) == p
    ensures t.TransformPoint(t.Inverse().TransformPoint(p)) == p
    ensures t.Inverse().Inverse() == t
    ensures t.Add(t.Inverse()).IsIdentity() && t.Inverse().Add(t).IsIdentity()
  {
  }

  lemma InverseLaws3(t: Translation3, p: Point3)
    ensures t.Inverse().TransformPoint(t.TransformPoint(p)) == p
    ensures t.TransformPoint(t.Inverse().TransformPoint(p)) == p
    ensures t.Inverse().Inverse() == t
    ensures t.Add(t.Inverse()).IsIdentity() && t.Inverse().Add(t).IsIdentity()
  {
  }

  /** `a + b` applies `a` first and then `b`; subtracting `b` again gives `a` back. */
  lemma AddComposes2(a: Translation2, b: Translation2, p: Point2, bx: Box2)
    ensures a.Add(b).TransformPoint(p) == b.TransformPoint(a.TransformPoint(p))
    ensures a.Add(b).TransformBox(bx) == b.TransformBox(a.TransformBox(bx))
    ensures a.Add(b).Sub(b) == a && a.Add(b) == b.Add(a)
  {
  }

  lemma AddComposes3(a: Translation3, b: Translation3, p: Point3, bx: Box3)
    ensures a.Add(b).TransformPoint(p) == b.TransformPoint(a.TransformPoint(p))
    ensures a.Add(b).TransformBox(bx) == b.TransformBox(a.TransformBox(bx))
    ensures a.Add(b).Sub(b) == a && a.Add(b) == b.Add(a)
  {
  }

  /**
   * Translating a point adds the translation vector; vectors, normals and
   * sizes are unchanged, and so are differences of points.
   */
  lemma RigidLaws2(t: Translation2, p: Point2, q: Point2, v: Vector2, s: Size2)
    ensures t.TransformPoint(p) == p.AddVector(t.ToVector())
    ensures t.TransformVector(v) == v && t.TransformNormal(v) == v && t.TransformSize(s) == s
    ensures t.TransformPoint(p).Sub(t.TransformPoint(q)) == p.Sub(q)
  {
  }

  lemma RigidLaws3(t: Translation3, p: Point3, q: Point3, v: Vector3, s: Size3)
    ensures t.TransformPoint(p) == p.AddVector(t.ToVector())
    ensures t.TransformVector(v) == v && t.TransformNormal(v) == v && t.TransformSize(s) == s
    ensures t.TransformPoint(p).Sub(t.TransformPoint(q)) == p.Sub(q)
  {
  }

  /** A translated box is the box translated by the vector, with the same size, emptiness and members. */
  lemma BoxLaws2(t: Translation2, b: Box2, p: Point2)
    ensures t.TransformBox(b) == b.Translate(t.ToVector())
    ensures t.TransformBox(b).Size() == b.Size()
    ensures t.TransformBox(b).IsEmpty() == b.IsEmpty()
    ensures t.TransformBox(b).Contains(t.TransformPoint(p)) == b.Contains(p)
  {
  }

  lemma BoxLaws3(t: Translation3, b: Box3, p: Point3)
    ensures t.TransformBox(b) == b.Translate(t.ToVector())
    ensures t.TransformBox(b).Size() == b.Size()
    ensures t.TransformBox(b).IsEmpty() == b.IsEmpty()
    ensures t.TransformBox(b).Contains(t.TransformPoint(p)) == b.Contains(p)
  {
  }

  // In-place composition.

  method AddAssign2(place: Place<Translation2>, rhs: Translation2)
    modifies place
    ensures place.value == old(place.value).Add(rhs)
  {
    place.value := place.value.(x := place.value.x + rhs.x);
    place.value := place.value.(y := place.value.y + rhs.y);
  }

  method SubAssign2(place: Place<Translation2>, rhs: Translation2)
    modifies place
    ensures place.value == old(place.value).Sub(rhs)
  {
    place.value := place.value.(x := place.value.x - rhs.x);
    place.value := place.value.(y := place.value.y - rhs.y);
  }

  method AddAssign3(place: Place<Translation3>, rhs: Translation3)
    modifies place
    ensures place.value == old(place.value).Add(rhs)
  {
    place.value := place.value.(x := place.value.x + rhs.x);
    place.value := place.value.(y := place.value.y + rhs.y);
    place.value := place.value.(z := place.value.z + rhs.z);
  }

  method SubAssign3(place: Place<Translation3>, rhs: Translation3)
    modifies place
    ensures place.value == old(place.value).Sub(rhs)
  {
    place.value := place.value.(x := place.value.x - rhs.x);
    place.value := place.value.(y := place.value.y - rhs.y);
    place.value := place.value.(z := place.value.z - rhs.z);
  }
}
