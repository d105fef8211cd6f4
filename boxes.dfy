/**
 * Axis-aligned boxes of box.rs.  A box is the half-open region
 * `min <= p < max`; it is empty as soon as one axis has `max <= min`.
 */
module Boxes {
  import Num
  import opened Wrappers
  import opened Axes
  import opened Places
  import opened Units
  import opened Vectors
  import opened Sizes
  import opened Points

  /** `core::ops::Range`, the half-open interval `start..end`. */
  datatype AxisRange = AxisRange(start: real, end: real)

  datatype Box2 = Box2(min: Point2, max: Point2)
  {
    static function Empty(): Box2 { Box2(Point2.Zero(), Point2.Zero()) }

    /** The box with the given size at offset zero; also `From<Size2>`. */
    static function FromSize(size: Size2): Box2 { Box2(Point2.Zero(), Point2(size.x, size.y)) }

    function IsEmpty(): bool { !(max.x > min.x && max.y > min.y) }

    function Intersects(other: Box2): bool
    {
      min.x < other.max.x && other.min.x < max.x && min.y < other.max.y && other.min.y < max.y
    }

    function Contains(p: Point2): bool
    {
      min.x <= p.x && p.x < max.x && min.y <= p.y && p.y < max.y
    }

    function ContainsBox(other: Box2): bool
    {
      other.IsEmpty()
      || (min.x <= other.min.x && other.max.x <= max.x && min.y <= other.min.y && other.max.y <= max.y)
    }

    function Translate(offset: Vector2): Box2 { Box2(min.AddVector(offset), max.AddVector(offset)) }

    function Inflate(dx: real, dy: real): Box2
    {
      var p := Vector2(dx, dy);
      Box2(min.SubVector(p), max.AddVector(p))
    }

    function Range(axis: Axis2): AxisRange { AxisRange(min.Index(axis), max.Index(axis)) }

    function Center(): Point2
    {
      var two := 1.0 + 1.0;
      min.AddVector(max.ToVector()).Div(two)
    }

    function Length(axis: Axis2): Length { Units.Length(max.Index(axis) - min.Index(axis)) }

    function Size(): Size2 { Size2.FromVector(max.Sub(min)) }

    function Area(): real
    {
      var size := Size();
      size.x * size.y
    }

    function Union(other: Box2): Box2
    {
      if other.IsEmpty() then this
      else if IsEmpty() then other
      else Box2(min.Min(other.min), max.Max(other.max))
    }

    function Intersection(other: Box2): Option<Box2>
    {
      var ret := IntersectionUnchecked(other);
      if !ret.IsEmpty() then Some(ret) else None
    }

    function IntersectionUnchecked(other: Box2): Box2
    {
      Box2(min.Max(other.min), max.Min(other.max))
    }

    function Lerp(other: Box2, t: real): Box2
    {
      Box2(min.Lerp(other.min, t), max.Lerp(other.max, t))
    }

    function Mul(scale: real): Box2 { Box2(min.Mul(scale), max.Mul(scale)) }

    function Div(scale: real): Box2
      requires scale != 0.0
    {
      Box2(min.Div(scale), max.Div(scale))
    }
  }

  datatype Box3 = Box3(min: Point3, max: Point3)
  {
    static function Empty(): Box3 { Box3(Point3.Zero(), Point3.Zero()) }

    /** The box with the given size at offset zero; also `From<Size3>`. */
    static function FromSize(size: Size3): Box3 { Box3(Point3.Zero(), Point3(size.x, size.y, size.z)) }

    function IsEmpty(): bool { !(max.x > min.x && max.y > min.y && max.z > min.z) }

    function Intersects(other: Box3): bool
    {
      min.x < other.max.x && other.min.x < max.x
      && min.y < other.max.y && other.min.y < max.y
      && min.z < other.max.z && other.min.z < max.z
    }

    function Contains(p: Point3): bool
    {
      min.x <= p.x && p.x < max.x && min.y <= p.y && p.y < max.y && min.z <= p.z && p.z < max.z
    }

    function ContainsBox(other: Box3): bool
    {
      other.IsEmpty()
      || (min.x <= other.min.x && other.max.x <= max.x
          && min.y <= other.min.y && other.max.y <= max.y
          && min.z <= other.min.z && other.max.z <= max.z)
    }

    function Translate(offset: Vector3): Box3 { Box3(min.AddVector(offset), max.AddVector(offset)) }

    function Inflate(dx: real, dy: real, dz: real): Box3
    {
      var p := Vector3(dx, dy, dz);
      Box3(min.SubVector(p), max.AddVector(p))
    }

    function Range(axis: Axis3): AxisRange { AxisRange(min.Index(axis), max.Index(axis)) }

    function Center(): Point3
    {
      var two := 1.0 + 1.0;
      min.AddVector(max.ToVector()).Div(two)
    }

    function Length(axis: Axis3): Length { Units.Length(max.Index(axis) - min.Index(axis)) }

    function Size(): Size3 { Size3.FromVector(max.Sub(min)) }

    /** The area of the face spanned by two axes. */
    function Area(axis1: Axis3, axis2: Axis3): real
    {
      (max.Index(axis1) - min.Index(axis1)) * (max.Index(axis2) - min.Index(axis2))
    }

    function Volume(): real
    {
      var size := Size();
      size.x * size.y * size.z
    }

    function Union(other: Box3): Box3
    {
      if other.IsEmpty() then this
      else if IsEmpty() then other
      else Box3(min.Min(other.min), max.Max(other.max))
    }

    function Intersection(other: Box3): Option<Box3>
    {
      var ret := IntersectionUnchecked(other);
      if !ret.IsEmpty() then Some(ret) else None
    }

    function IntersectionUnchecked(other: Box3): Box3
    {
      Box3(min.Max(other.min), max.Min(other.max))
    }

    function Lerp(other: Box3, t: real): Box3
    {
      Box3(min.Lerp(other.min, t), max.Lerp(other.max, t))
    }

    /** Shrinks to integer corners: `ceil` of `min`, `floor` of `max`. */
    function RoundIn(): Box3 { Box3(min.Ceil(), max.Floor()) }

    /** Grows to integer corners: `floor` of `min`, `ceil` of `max`. */
    function RoundOut(): Box3 { Box3(min.Floor(), max.Ceil()) }

    function Mul(scale: real): Box3 { Box3(min.Mul(scale), max.Mul(scale)) }

    function Div(scale: real): Box3
      requires scale != 0.0
    {
      Box3(min.Div(scale), max.Div(scale))
    }
  }

  // ---------------------------------------------------------------------
  // Emptiness and containment

  lemma IsEmptyIff2(b: Box2)
    ensures b.IsEmpty() <==> exists a: Axis2 :: b.max.Index(a) <= b.min.Index(a)
    ensures b.IsEmpty() <==> b.Size().IsEmpty()
    ensures Box2.Empty().IsEmpty()
  {
    assert b.max.Index(Axis2.X) == b.max.x && b.min.Index(Axis2.X) == b.min.x;
    assert b.max.Index(Axis2.Y) == b.max.y && b.min.Index(Axis2.Y) == b.min.y;
  }

  lemma IsEmptyIff3(b: Box3)
    ensures b.IsEmpty() <==> exists a: Axis3 :: b.max.Index(a) <= b.min.Index(a)
    ensures b.IsEmpty() <==> b.Size().IsEmpty()
    ensures Box3.Empty().IsEmpty()
  {
    assert b.max.Index(Axis3.X) == b.max.x && b.min.Index(Axis3.X) == b.min.x;
    assert b.max.Index(Axis3.Y) == b.max.y && b.min.Index(Axis3.Y) == b.min.y;
    assert b.max.Index(Axis3.Z) == b.max.z && b.min.Index(Axis3.Z) == b.min.z;
  }

  /**
   * Containment is half-open on every axis, so an empty box contains no
   * point, and a non-empty box contains its `min` but not its `max`.
   */
  lemma ContainsHalfOpen2(b: Box2, p: Point2)
    ensures b.Contains(p) <==> forall a: Axis2 :: b.min.Index(a) <= p.Index(a) < b.max.Index(a)
    ensures b.IsEmpty() ==> !b.Contains(p)
    ensures !b.IsEmpty() ==> b.Contains(b.min) && !b.Contains(b.max)
  {
    assert p.Index(Axis2.X) == p.x && p.Index(Axis2.Y) == p.y;
  }

  lemma ContainsHalfOpen3(b: Box3, p: Point3)
    ensures b.Contains(p) <==> forall a: Axis3 :: b.min.Index(a) <= p.Index(a) < b.max.Index(a)
    ensures b.IsEmpty() ==> !b.Contains(p)
    ensures !b.IsEmpty() ==> b.Contains(b.min) && !b.Contains(b.max)
  {
    assert p.Index(Axis3.X) == p.x && p.Index(Axis3.Y) == p.y && p.Index(Axis3.Z) == p.z;
  }

  /**
   * `contains_box` holds for an empty operand and for the box itself, and
   * it is sound: every point of the inner box is a point of the outer one.
   */
  lemma ContainsBoxLaws2(b: Box2, o: Box2, p: Point2)
    ensures o.IsEmpty() ==> b.ContainsBox(o)
    ensures b.ContainsBox(b)
    ensures b.ContainsBox(o) && o.Contains(p) ==> b.Contains(p)
  {
  }

  lemma ContainsBoxLaws3(b: Box3, o: Box3, p: Point3)
    ensures o.IsEmpty() ==> b.ContainsBox(o)
    ensures b.ContainsBox(b)
    ensures b.ContainsBox(o) && o.Contains(p) ==> b.Contains(p)
  {
  }

  // ---------------------------------------------------------------------
  // Union and intersection

  /**
   * `union` returns the other operand unchanged when one is empty, and in
   * every case contains both operands and all of their points.
   */
  lemma UnionLaws2(a: Box2, b: Box2, p: Point2)
    ensures b.IsEmpty() ==> a.Union(b) == a
    ensures a.IsEmpty() && !b.IsEmpty() ==> a.Union(b) == b
    ensures a.Union(b).ContainsBox(a) && a.Union(b).ContainsBox(b)
    ensures a.Contains(p) || b.Contains(p) ==> a.Union(b).Contains(p)
  {
    if a.Contains(p) || b.Contains(p) {
      ContainsBoxLaws2(a.Union(b), a, p);
      ContainsBoxLaws2(a.Union(b), b, p);
    }
  }

  lemma UnionLaws3(a: Box3, b: Box3, p: Point3)
    ensures b.IsEmpty() ==> a.Union(b) == a
    ensures a.IsEmpty() && !b.IsEmpty() ==> a.Union(b) == b
    ensures a.Union(b).ContainsBox(a) && a.Union(b).ContainsBox(b)
    ensures a.Contains(p) || b.Contains(p) ==> a.Union(b).Contains(p)
  {
    if a.Contains(p) || b.Contains(p) {
      ContainsBoxLaws3(a.Union(b), a, p);
      ContainsBoxLaws3(a.Union(b), b, p);
    }
  }

  /**
   * `intersection` is `None` iff the unchecked intersection is empty, and
   * otherwise is that box.  The unchecked intersection holds exactly the
   * points common to both boxes, and `intersects` is symmetric.
   */
  lemma IntersectionLaws2(a: Box2, b: Box2, p: Point2)
    ensures a.Intersection(b).None? <==> a.IntersectionUnchecked(b).IsEmpty()
    ensures a.Intersection(b).Some? ==> a.Intersection(b).value == a.IntersectionUnchecked(b)
    ensures a.IntersectionUnchecked(b).Contains(p) <==> a.Contains(p) && b.Contains(p)
    ensures a.Intersects(b) <==> b.Intersects(a)
    ensures a.Intersection(b) == b.Intersection(a)
  {
  }

  lemma IntersectionLaws3(a: Box3, b: Box3, p: Point3)
    ensures a.Intersection(b).None? <==> a.IntersectionUnchecked(b).IsEmpty()
    ensures a.Intersection(b).Some? ==> a.Intersection(b).value == a.IntersectionUnchecked(b)
    ensures a.IntersectionUnchecked(b).Contains(p) <==> a.Contains(p) && b.Contains(p)
    ensures a.Intersects(b) <==> b.Intersects(a)
    ensures a.Intersection(b) == b.Intersection(a)
  {
  }

  /**
   * For two non-empty boxes, `intersects` agrees with `intersection`
   * being `Some`.  With an empty operand it need not: a degenerate box
   * lying inside another still `intersects` it.
   */
  lemma IntersectsAgreesWithIntersection2(a: Box2, b: Box2)
    ensures !a.IsEmpty() && !b.IsEmpty() ==> (a.Intersects(b) <==> a.Intersection(b).Some?)
    ensures a.Intersection(b).Some? ==> a.Intersects(b)
  {
  }

  lemma IntersectsAgreesWithIntersection3(a: Box3, b: Box3)
    ensures !a.IsEmpty() && !b.IsEmpty() ==> (a.Intersects(b) <==> a.Intersection(b).Some?)
    ensures a.Intersection(b).Some? ==> a.Intersects(b)
  {
  }

  lemma DegenerateBoxIntersects()
    ensures Box2(Point2(0.0, 0.0), Point2(0.0, 1.0)).IsEmpty()
    ensures Box2(Point2(0.0, 0.0), Point2(0.0, 1.0)).Intersects(Box2(Point2(-1.0, -1.0), Point2(1.0, 1.0)))
    ensures Box2(Point2(0.0, 0.0), Point2(0.0, 1.0)).Intersection(Box2(Point2(-1.0, -1.0), Point2(1.0, 1.0))).None?
  {
  }

  // ---------------------------------------------------------------------
  // Moving, growing and measuring

  /** `translate` keeps the size and moves every contained point along. */
  lemma TranslateLaws2(b: Box2, v: Vector2, p: Point2)
    ensures b.Translate(v).Size() == b.Size()
    ensures b.Translate(v).Contains(p.AddVector(v)) <==> b.Contains(p)
    ensures b.Translate(v).IsEmpty() == b.IsEmpty()
  {
  }

  lemma TranslateLaws3(b: Box3, v: Vector3, p: Point3)
    ensures b.Translate(v).Size() == b.Size()
    ensures b.Translate(v).Contains(p.AddVector(v)) <==> b.Contains(p)
    ensures b.Translate(v).IsEmpty() == b.IsEmpty()
  {
  }

  /** Inflating by non-negative amounts gives a box containing the original, grown by twice each amount. */
  lemma InflateLaws2(b: Box2, dx: real, dy: real)
    requires dx >= 0.0 && dy >= 0.0
    ensures b.Inflate(dx, dy).ContainsBox(b)
    ensures b.Inflate(dx, dy).Size() == b.Size().Add(Size2(2.0 * dx, 2.0 * dy))
  {
  }

  lemma InflateLaws3(b: Box3, dx: real, dy: real, dz: real)
    requires dx >= 0.0 && dy >= 0.0 && dz >= 0.0
    ensures b.Inflate(dx, dy, dz).ContainsBox(b)
    ensures b.Inflate(dx, dy, dz).Size() == b.Size().Add(Size3(2.0 * dx, 2.0 * dy, 2.0 * dz))
  {
  }

  /**
   * `range` and `length` read the extent of one axis, which is the size
   * along that axis; `area` and `volume` multiply the extents.
   */
  lemma Measures2(b: Box2, axis: Axis2)
    ensures b.Range(axis).end - b.Range(axis).start == b.Length(axis).value == b.Size().Index(axis)
    ensures b.Area() == b.Size().Area()
    ensures !b.IsEmpty() ==> b.Area() > 0.0
  {
    var s := b.Size();
    assert s.x == b.max.x - b.min.x && s.y == b.max.y - b.min.y;
    match axis {
      case X =>
      case Y =>
    }
    if !b.IsEmpty() {
      assert s.x > 0.0 && s.y > 0.0;
      assert s.x * s.y > 0.0;
    }
  }

  /** The extent of a box along one axis is its size along that axis. */
  lemma SizeIndex3(b: Box3, axis: Axis3)
    ensures b.max.Index(axis) - b.min.Index(axis) == b.Size().Index(axis)
  {
    match axis {
      case X =>
      case Y =>
      case Z =>
    }
  }

  lemma Measures3(b: Box3, axis: Axis3, other: Axis3)
    ensures b.Range(axis).end - b.Range(axis).start == b.Length(axis).value == b.Size().Index(axis)
    ensures b.Volume() == b.Size().Volume()
    ensures b.Area(axis, other) == b.Size().Index(axis) * b.Size().Index(other)
    ensures b.Area(Axis3.X, Axis3.Y) * b.Size().z == b.Volume()
    ensures !b.IsEmpty() ==> b.Volume() > 0.0
  {
    SizeIndex3(b, axis);
    AreaIndex3(b, axis, other);
    VolumeLaws3(b);
  }

  lemma AreaIndex3(b: Box3, axis: Axis3, other: Axis3)
    ensures b.Area(axis, other) == b.Size().Index(axis) * b.Size().Index(other)
  {
    SizeIndex3(b, axis);
    SizeIndex3(b, other);
  }

  lemma VolumeLaws3(b: Box3)
    ensures b.Volume() == b.Size().Volume()
    ensures b.Area(Axis3.X, Axis3.Y) * b.Size().z == b.Volume()
    ensures !b.IsEmpty() ==> b.Volume() > 0.0
  {
    var s := b.Size();
    assert s == Size3(b.max.x - b.min.x, b.max.y - b.min.y, b.max.z - b.min.z);
    assert b.Area(Axis3.X, Axis3.Y) == s.x * s.y;
    if !b.IsEmpty() {
      PositiveProduct3(s.x, s.y, s.z);
    }
  }

  lemma PositiveProduct3(x: real, y: real, z: real)
    requires x > 0.0 && y > 0.0 && z > 0.0
    ensures x * y * z > 0.0
  {
    assert x * y > 0.0;
  }

  /** The center is the midpoint of the corners and lies in every non-empty box. */
  lemma CenterLaws2(b: Box2)
    ensures b.Center() == b.min.Lerp(b.max, 0.5)
    ensures !b.IsEmpty() ==> b.Contains(b.Center())
  {
  }

  lemma CenterLaws3(b: Box3)
    ensures b.Center() == b.min.Lerp(b.max, 0.5)
    ensures !b.IsEmpty() ==> b.Contains(b.Center())
  {
  }

  /** A box made from a size starts at the origin and has that size. */
  lemma FromSizeLaws(s2: Size2, s3: Size3)
    ensures Box2.FromSize(s2).min == Point2.Origin() && Box2.FromSize(s2).Size() == s2
    ensures Box3.FromSize(s3).min == Point3.Origin() && Box3.FromSize(s3).Size() == s3
    ensures Box2.FromSize(s2).IsEmpty() == s2.IsEmpty() && Box3.FromSize(s3).IsEmpty() == s3.IsEmpty()
  {
  }

  lemma LerpEndpoints2(a: Box2, b: Box2)
    ensures a.Lerp(b, 0.0) == a && a.Lerp(b, 1.0) == b
  {
  }

  lemma LerpEndpoints3(a: Box3, b: Box3)
    ensures a.Lerp(b, 0.0) == a && a.Lerp(b, 1.0) == b
  {
  }

  /** As documented: the original contains `round_in`, and `round_out` contains the original. */
  lemma RoundInOut(b: Box3)
    ensures b.ContainsBox(b.RoundIn())
    ensures b.RoundOut().ContainsBox(b)
  {
    Points.Rounding3(b.min);
    Points.Rounding3(b.max);
  }

  lemma ScaleLaws2(b: Box2, s: real)
    ensures s != 0.0 ==> b.Mul(s).Div(s) == b
    ensures s > 0.0 ==> b.Mul(s).IsEmpty() == b.IsEmpty()
  {
    if s != 0.0 {
      ScalarLaws2(b.min, s);
      ScalarLaws2(b.max, s);
    }
    if s > 0.0 {
      Num.ScaleKeepsOrder(b.min.x, b.max.x, s);
      Num.ScaleKeepsOrder(b.min.y, b.max.y, s);
    }
  }

  lemma ScaleLaws3(b: Box3, s: real)
    ensures s != 0.0 ==> b.Mul(s).Div(s) == b
    ensures s > 0.0 ==> b.Mul(s).IsEmpty() == b.IsEmpty()
  {
    if s != 0.0 {
      ScalarLaws3(b.min, s);
      ScalarLaws3(b.max, s);
    }
    if s > 0.0 {
      Num.ScaleKeepsOrder(b.min.x, b.max.x, s);
      Num.ScaleKeepsOrder(b.min.y, b.max.y, s);
      Num.ScaleKeepsOrder(b.min.z, b.max.z, s);
    }
  }

  method MulAssign2(place: Place<Box2>, scale: real)
    modifies place
    ensures place.value == old(place.value).Mul(scale)
  {
    place.value := place.value.(min := place.value.min.Mul(scale));
    place.value := place.value.(max := place.value.max.Mul(scale));
  }

  method DivAssign2(place: Place<Box2>, scale: real)
    requires scale != 0.0
    modifies place
    ensures place.value == old(place.value).Div(scale)
  {
    place.value := place.value.(min := place.value.min.Div(scale));
    place.value := place.value.(max := place.value.max.Div(scale));
  }

  method MulAssign3(place: Place<Box3>, scale: real)
    modifies place
    ensures place.value == old(place.value).Mul(scale)
  {
    place.value := place.value.(min := place.value.min.Mul(scale));
    place.value := place.value.(max := place.value.max.Mul(scale));
  }

  method DivAssign3(place: Place<Box3>, scale: real)
    requires scale != 0.0
    modifies place
    ensures place.value == old(place.value).Div(scale)
  {
    place.value := place.value.(min := place.value.min.Div(scale));
    place.value := place.value.(max := place.value.max.Div(scale));
  }

  // ---------------------------------------------------------------------
  // Bounding boxes of point sequences

  /** The running componentwise minimum, folded as `point.min(acc)` from the front. */
  function MinOf2(ps: seq<Point2>): Point2
    requires |ps| > 0
  {
    if |ps| == 1 then ps[0] else ps[|ps| - 1].Min(MinOf2(ps[..|ps| - 1]))
  }

  function MaxOf2(ps: seq<Point2>): Point2
    requires |ps| > 0
  {
    if |ps| == 1 then ps[0] else ps[|ps| - 1].Max(MaxOf2(ps[..|ps| - 1]))
  }

  function MinOf3(ps: seq<Point3>): Point3
    requires |ps| > 0
  {
    if |ps| == 1 then ps[0] else ps[|ps| - 1].Min(MinOf3(ps[..|ps| - 1]))
  }

  function MaxOf3(ps: seq<Point3>): Point3
    requires |ps| > 0
  {
    if |ps| == 1 then ps[0] else ps[|ps| - 1].Max(MaxOf3(ps[..|ps| - 1]))
  }

  /** What `from_points` returns: `empty()` for no points, else the running min and max. */
  function Bounds2(ps: seq<Point2>): Box2
  {
    if |ps| == 0 then Box2.Empty() else Box2(MinOf2(ps), MaxOf2(ps))
  }

  function Bounds3(ps: seq<Point3>): Box3
  {
    if |ps| == 0 then Box3.Empty() else Box3(MinOf3(ps), MaxOf3(ps))
  }

  method FromPoints2(points: seq<Point2>) returns (b: Box2)
    ensures b == Bounds2(points)
  {
    if |points| == 0 {
      return Box2.Empty();
    }
    var min := points[0];
    var max := min;
    var i := 1;
    while i < |points|
      invariant 1 <= i <= |points|
      invariant min == MinOf2(points[..i]) && max == MaxOf2(points[..i])
    {
      var point := points[i];
      assert points[..i + 1][..i] == points[..i];
      min := point.Min(min);
      max := point.Max(max);
      i := i + 1;
    }
    assert points[..|points|] == points;
    b := Box2(min, max);
  }

  method FromPoints3(points: seq<Point3>) returns (b: Box3)
    ensures b == Bounds3(points)
  {
    if |points| == 0 {
      return Box3.Empty();
    }
    var min := points[0];
    var max := min;
    var i := 1;
    while i < |points|
      invariant 1 <= i <= |points|
      invariant min == MinOf3(points[..i]) && max == MaxOf3(points[..i])
    {
      var point := points[i];
      assert points[..i + 1][..i] == points[..i];
      min := point.Min(min);
      max := point.Max(max);
      i := i + 1;
    }
    assert points[..|points|] == points;
    b := Box3(min, max);
  }

  /** Every point lies between the running minimum and maximum. */
  lemma {:induction false} MinMaxOfBound2(ps: seq<Point2>)
    requires |ps| > 0
    ensures forall i :: 0 <= i < |ps| ==> MinOf2(ps).Le(ps[i]) && ps[i].Le(MaxOf2(ps))
  {
    if |ps| > 1 {
      MinMaxOfBound2(ps[..|ps| - 1]);
      assert forall i :: 0 <= i < |ps| - 1 ==> ps[i] == ps[..|ps| - 1][i];
    }
  }

  lemma {:induction false} MinMaxOfBound3(ps: seq<Point3>)
    requires |ps| > 0
    ensures forall i :: 0 <= i < |ps| ==> MinOf3(ps).Le(ps[i]) && ps[i].Le(MaxOf3(ps))
  {
    if |ps| > 1 {
      MinMaxOfBound3(ps[..|ps| - 1]);
      assert forall i :: 0 <= i < |ps| - 1 ==> ps[i] == ps[..|ps| - 1][i];
    }
  }

  /** On every axis the minimum and the maximum are the coordinate of some input point. */
  lemma {:induction false} MinMaxOfAttained2(ps: seq<Point2>, axis: Axis2)
    requires |ps| > 0
    ensures exists i :: 0 <= i < |ps| && MinOf2(ps).Index(axis) == ps[i].Index(axis)
    ensures exists i :: 0 <= i < |ps| && MaxOf2(ps).Index(axis) == ps[i].Index(axis)
  {
    if |ps| == 1 {
      assert MinOf2(ps).Index(axis) == ps[0].Index(axis);
      assert MaxOf2(ps).Index(axis) == ps[0].Index(axis);
    } else {
      var n := |ps| - 1;
      var init := ps[..n];
      MinMaxOfAttained2(init, axis);
      var j :| 0 <= j < n && MinOf2(init).Index(axis) == init[j].Index(axis);
      var k :| 0 <= k < n && MaxOf2(init).Index(axis) == init[k].Index(axis);
      assert init[j] == ps[j] && init[k] == ps[k];
      if MinOf2(ps).Index(axis) == ps[n].Index(axis) {
      } else {
        assert MinOf2(ps).Index(axis) == ps[j].Index(axis);
      }
      if MaxOf2(ps).Index(axis) == ps[n].Index(axis) {
      } else {
        assert MaxOf2(ps).Index(axis) == ps[k].Index(axis);
      }
    }
  }

  lemma {:induction false} MinMaxOfAttained3(ps: seq<Point3>, axis: Axis3)
    requires |ps| > 0
    ensures exists i :: 0 <= i < |ps| && MinOf3(ps).Index(axis) == ps[i].Index(axis)
    ensures exists i :: 0 <= i < |ps| && MaxOf3(ps).Index(axis) == ps[i].Index(axis)
  {
    if |ps| == 1 {
      assert MinOf3(ps).Index(axis) == ps[0].Index(axis);
      assert MaxOf3(ps).Index(axis) == ps[0].Index(axis);
    } else {
      var n := |ps| - 1;
      var init := ps[..n];
      MinMaxOfAttained3(init, axis);
      var j :| 0 <= j < n && MinOf3(init).Index(axis) == init[j].Index(axis);
      var k :| 0 <= k < n && MaxOf3(init).Index(axis) == init[k].Index(axis);
      assert init[j] == ps[j] && init[k] == ps[k];
      if MinOf3(ps).Index(axis) == ps[n].Index(axis) {
      } else {
        assert MinOf3(ps).Index(axis) == ps[j].Index(axis);
      }
      if MaxOf3(ps).Index(axis) == ps[n].Index(axis) {
      } else {
        assert MaxOf3(ps).Index(axis) == ps[k].Index(axis);
      }
    }
  }

  /**
   * `from_points`: no points give `empty()`; otherwise every point lies
   * componentwise between `min` and `max`, and each coordinate of both
   * corners is attained by some input point.
   */
  lemma BoundsLaws2(ps: seq<Point2>)
    ensures |ps| == 0 ==> Bounds2(ps) == Box2.Empty()
    ensures forall i :: 0 <= i < |ps| ==> Bounds2(ps).min.Le(ps[i]) && ps[i].Le(Bounds2(ps).max)
    ensures |ps| > 0 ==> forall a: Axis2 ::
      (exists i :: 0 <= i < |ps| && Bounds2(ps).min.Index(a) == ps[i].Index(a))
      && (exists i :: 0 <= i < |ps| && Bounds2(ps).max.Index(a) == ps[i].Index(a))
  {
    if |ps| > 0 {
      assert Bounds2(ps).min == MinOf2(ps) && Bounds2(ps).max == MaxOf2(ps);
      MinMaxOfBound2(ps);
      forall a: Axis2 {
        MinMaxOfAttained2(ps, a);
      }
    }
  }

  lemma BoundsLaws3(ps: seq<Point3>)
    ensures |ps| == 0 ==> Bounds3(ps) == Box3.Empty()
    ensures forall i :: 0 <= i < |ps| ==> Bounds3(ps).min.Le(ps[i]) && ps[i].Le(Bounds3(ps).max)
    ensures |ps| > 0 ==> forall a: Axis3 ::
      (exists i :: 0 <= i < |ps| && Bounds3(ps).min.Index(a) == ps[i].Index(a))
      && (exists i :: 0 <= i < |ps| && Bounds3(ps).max.Index(a) == ps[i].Index(a))
  {
    if |ps| > 0 {
      assert Bounds3(ps).min == MinOf3(ps) && Bounds3(ps).max == MaxOf3(ps);
      MinMaxOfBound3(ps);
      forall a: Axis3 {
        MinMaxOfAttained3(ps, a);
      }
    }
  }

  // ---------------------------------------------------------------------
  // Bounding boxes of fallible point sequences

  /** The error of the first `Err` item, if any. */
  function FirstError<T, E>(items: seq<Result<T, E>>): Option<E>
  {
    if |items| == 0 then None
    else if items[0].Err? then Some(items[0].error)
    else FirstError(items[1..])
  }

  /** The values of the `Ok` items, in order. */
  function Oks<T, E>(items: seq<Result<T, E>>): seq<T>
  {
    if |items| == 0 then []
    else Oks(items[..|items| - 1]) + (if items[|items| - 1].Ok? then [items[|items| - 1].value] else [])
  }

  /** What `try_from_points` returns: the first error, else the bounds of the unwrapped points. */
  function TryBounds2<E>(items: seq<Result<Point2, E>>): Result<Box2, E>
  {
    match FirstError(items)
    case Some(e) => Err(e)
    case None => Ok(Bounds2(Oks(items)))
  }

  function TryBounds3<E>(items: seq<Result<Point3, E>>): Result<Box3, E>
  {
    match FirstError(items)
    case Some(e) => Err(e)
    case None => Ok(Bounds3(Oks(items)))
  }

  /** `FirstError` finds the earliest `Err`, and is `None` exactly when every item is `Ok`. */
  lemma {:induction false} FirstErrorAt<T, E>(items: seq<Result<T, E>>, i: int)
    requires 0 <= i < |items| && items[i].Err?
    requires forall j :: 0 <= j < i ==> items[j].Ok?
    ensures FirstError(items) == Some(items[i].error)
  {
    if i > 0 {
      FirstErrorAt(items[1..], i - 1);
    }
  }

  lemma {:induction false} FirstErrorNone<T, E>(items: seq<Result<T, E>>)
    ensures FirstError(items).None? <==> forall j :: 0 <= j < |items| ==> items[j].Ok?
  {
    if |items| > 0 {
      FirstErrorNone(items[1..]);
      assert forall j :: 1 <= j < |items| ==> items[j] == items[1..][j - 1];
    }
  }

  /** With no error, `Oks` is the item-by-item unwrapping. */
  lemma {:induction false} OksAllOk<T, E>(items: seq<Result<T, E>>)
    requires forall j :: 0 <= j < |items| ==> items[j].Ok?
    ensures |Oks(items)| == |items|
    ensures forall j :: 0 <= j < |items| ==> Oks(items)[j] == items[j].value
  {
    if |items| > 0 {
      OksAllOk(items[..|items| - 1]);
    }
  }

  /**
   * `try_from_points` returns the first `Err` it meets; with no error it
   * is `from_points` on the unwrapped points.
   */
  lemma TryBoundsLaws2<E>(items: seq<Result<Point2, E>>, ps: seq<Point2>)
    requires |ps| == |items| && forall j :: 0 <= j < |items| ==> items[j] == Ok(ps[j])
    ensures TryBounds2(items) == Ok(Bounds2(ps))
  {
    FirstErrorNone(items);
    OksAllOk(items);
    assert Oks(items) == ps;
  }

  lemma TryBoundsError2<E>(items: seq<Result<Point2, E>>, i: int)
    requires 0 <= i < |items| && items[i].Err?
    requires forall j :: 0 <= j < i ==> items[j].Ok?
    ensures TryBounds2(items) == Err(items[i].error)
  {
    FirstErrorAt(items, i);
  }

  lemma TryBoundsLaws3<E>(items: seq<Result<Point3, E>>, ps: seq<Point3>)
    requires |ps| == |items| && forall j :: 0 <= j < |items| ==> items[j] == Ok(ps[j])
    ensures TryBounds3(items) == Ok(Bounds3(ps))
  {
    FirstErrorNone(items);
    OksAllOk(items);
    assert Oks(items) == ps;
  }

  lemma TryBoundsError3<E>(items: seq<Result<Point3, E>>, i: int)
    requires 0 <= i < |items| && items[i].Err?
    requires forall j :: 0 <= j < i ==> items[j].Ok?
    ensures TryBounds3(items) == Err(items[i].error)
  {
    FirstErrorAt(items, i);
  }

  method TryFromPoints2<E>(points: seq<Result<Point2, E>>) returns (r: Result<Box2, E>)
    ensures r == TryBounds2(points)
  {
    if |points| == 0 {
      return Ok(Box2.Empty());
    }
    if points[0].Err? {
      FirstErrorAt(points, 0);
      return Err(points[0].error);
    }
    var min := points[0].value;
    var max := min;
    var i := 1;
    assert Oks(points[..1]) == [min] by {
      assert points[..1][..0] == [];
    }
    while i < |points|
      invariant 1 <= i <= |points|
      invariant forall j :: 0 <= j < i ==> points[j].Ok?
      invariant |Oks(points[..i])| == i
      invariant min == MinOf2(Oks(points[..i])) && max == MaxOf2(Oks(points[..i]))
    {
      if points[i].Err? {
        FirstErrorAt(points, i);
        return Err(points[i].error);
      }
      var point := points[i].value;
      assert points[..i + 1][..i] == points[..i];
      assert Oks(points[..i + 1]) == Oks(points[..i]) + [point];
      assert Oks(points[..i + 1])[..i] == Oks(points[..i]);
      min := point.Min(min);
      max := point.Max(max);
      i := i + 1;
    }
    assert points[..|points|] == points;
    FirstErrorNone(points);
    r := Ok(Box2(min, max));
  }

  method TryFromPoints3<E>(points: seq<Result<Point3, E>>) returns (r: Result<Box3, E>)
    ensures r == TryBounds3(points)
  {
    if |points| == 0 {
      return Ok(Box3.Empty());
    }
    if points[0].Err? {
      FirstErrorAt(points, 0);
      return Err(points[0].error);
    }
    var min := points[0].value;
    var max := min;
    var i := 1;
    assert Oks(points[..1]) == [min] by {
      assert points[..1][..0] == [];
    }
    while i < |points|
      invariant 1 <= i <= |points|
      invariant forall j :: 0 <= j < i ==> points[j].Ok?
      invariant |Oks(points[..i])| == i
      invariant min == MinOf3(Oks(points[..i])) && max == MaxOf3(Oks(points[..i]))
    {
      if points[i].Err? {
        FirstErrorAt(points, i);
        return Err(points[i].error);
      }
      var point := points[i].value;
      assert points[..i + 1][..i] == points[..i];
      assert Oks(points[..i + 1]) == Oks(points[..i]) + [point];
      assert Oks(points[..i + 1])[..i] == Oks(points[..i]);
      min := point.Min(min);
      max := point.Max(max);
      i := i + 1;
    }
    assert points[..|points|] == points;
    FirstErrorNone(points);
    r := Ok(Box3(min, max));
  }
}
