/** Extents of size.rs: a width and height (and depth), with their arithmetic. */
module Sizes {
  import Num
  import opened Axes
  import opened Masks
  import opened Places
  import opened Units
  import opened Vectors

  datatype Size2 = Size2(x: real, y: real)
  {
    static function Zero(): Size2 { Size2(0.0, 0.0) }

    static function FromLengths(x: Length, y: Length): Size2 { Size2(x.value, y.value) }

    static function Splat(v: real): Size2 { Size2(v, v) }

    /** `From<Vector2>`, that is `Vector2::to_size`. */
    static function FromVector(v: Vector2): Size2 { Size2(v.x, v.y) }

    function ToVector(): Vector2 { Vector2(x, y) }

    function Area(): real { x * y }

    function Lerp(other: Size2, t: real): Size2
    {
      var oneMinusT := 1.0 - t;
      Mul(oneMinusT).Add(other.Mul(t))
    }

    function Min(other: Size2): Size2 { Size2(Num.Min(x, other.x), Num.Min(y, other.y)) }

    function Max(other: Size2): Size2 { Size2(Num.Max(x, other.x), Num.Max(y, other.y)) }

    /** Note the order: first `min(hi)`, then `max(lo)`. */
    function Clamp(lo: Size2, hi: Size2): Size2 { Min(hi).Max(lo) }

    function Contains(other: Size2): bool { CmpGe(other).All() }

    function IsEmpty(): bool { !(x > 0.0 && y > 0.0) }

    function CmpEq(other: Size2): Mask2 { Mask2(x == other.x, y == other.y) }

    function CmpNe(other: Size2): Mask2 { Mask2(x != other.x, y != other.y) }

    function CmpGt(other: Size2): Mask2 { Mask2(x > other.x, y > other.y) }

    function CmpGe(other: Size2): Mask2 { Mask2(x >= other.x, y >= other.y) }

    function CmpLt(other: Size2): Mask2 { Mask2(x < other.x, y < other.y) }

    function CmpLe(other: Size2): Mask2 { Mask2(x <= other.x, y <= other.y) }

    function Neg(): Size2 { Size2(-x, -y) }

    function Add(rhs: Size2): Size2 { Size2(x + rhs.x, y + rhs.y) }

    function Sub(rhs: Size2): Size2 { Size2(x - rhs.x, y - rhs.y) }

    function Mul(scale: real): Size2 { Size2(x * scale, y * scale) }

    function Div(scale: real): Size2
      requires scale != 0.0
    {
      Size2(x / scale, y / scale)
    }

    function Index(axis: Axis2): real
    {
      match axis
      case X => x
      case Y => y
    }
  }

  datatype Size3 = Size3(x: real, y: real, z: real)
  {
    static function Zero(): Size3 { Size3(0.0, 0.0, 0.0) }

    static function FromLengths(x: Length, y: Length, z: Length): Size3 { Size3(x.value, y.value, z.value) }

    static function Splat(v: real): Size3 { Size3(v, v, v) }

    /** `From<Vector3>`, that is `Vector3::to_size`. */
    static function FromVector(v: Vector3): Size3 { Size3(v.x, v.y, v.z) }

    function ToVector(): Vector3 { Vector3(x, y, z) }

    function Volume(): real { x * y * z }

    function Lerp(other: Size3, t: real): Size3
    {
      var oneMinusT := 1.0 - t;
      Mul(oneMinusT).Add(other.Mul(t))
    }

    function Min(other: Size3): Size3
    {
      Size3(Num.Min(x, other.x), Num.Min(y, other.y), Num.Min(z, other.z))
    }

    function Max(other: Size3): Size3
    {
      Size3(Num.Max(x, other.x), Num.Max(y, other.y), Num.Max(z, other.z))
    }

    /** Note the order: first `min(hi)`, then `max(lo)`. */
    function Clamp(lo: Size3, hi: Size3): Size3 { Min(hi).Max(lo) }

    function Contains(other: Size3): bool { CmpGe(other).All() }

    function IsEmpty(): bool { !(x > 0.0 && y > 0.0 && z > 0.0) }

    function CmpEq(other: Size3): Mask3 { Mask3(x == other.x, y == other.y, z == other.z) }

    function CmpNe(other: Size3): Mask3 { Mask3(x != other.x, y != other.y, z != other.z) }

    function CmpGt(other: Size3): Mask3 { Mask3(x > other.x, y > other.y, z > other.z) }

    function CmpGe(other: Size3): Mask3 { Mask3(x >= other.x, y >= other.y, z >= other.z) }

    function CmpLt(other: Size3): Mask3 { Mask3(x < other.x, y < other.y, z < other.z) }

    function CmpLe(other: Size3): Mask3 { Mask3(x <= other.x, y <= other.y, z <= other.z) }

    function Neg(): Size3 { Size3(-x, -y, -z) }

    function Add(rhs: Size3): Size3 { Size3(x + rhs.x, y + rhs.y, z + rhs.z) }

    function Sub(rhs: Size3): Size3 { Size3(x - rhs.x, y - rhs.y, z - rhs.z) }

    function Mul(scale: real): Size3 { Size3(x * scale, y * scale, z * scale) }

    function Div(scale: real): Size3
      requires scale != 0.0
    {
      Size3(x / scale, y / scale, z / scale)
    }

    function Index(axis: Axis3): real
    {
      match axis
      case X => x
      case Y => y
      case Z => z
    }
  }

  /** A size is empty iff some axis has a non-positive extent. */
  lemma IsEmptyIff2(s: Size2)
    ensures s.IsEmpty() <==> exists a: Axis2 :: s.Index(a) <= 0.0
  {
    assert s.Index(Axis2.X) == s.x && s.Index(Axis2.Y) == s.y;
  }

  lemma IsEmptyIff3(s: Size3)
    ensures s.IsEmpty() <==> exists a: Axis3 :: s.Index(a) <= 0.0
  {
    assert s.Index(Axis3.X) == s.x && s.Index(Axis3.Y) == s.y && s.Index(Axis3.Z) == s.z;
  }

  /** `contains` is the componentwise order `other <= self`; in particular every size contains itself. */
  lemma ContainsIff2(s: Size2, o: Size2)
    ensures s.Contains(o) <==> forall a: Axis2 :: o.Index(a) <= s.Index(a)
    ensures s.Contains(s)
  {
    assert o.Index(Axis2.X) == o.x && o.Index(Axis2.Y) == o.y;
  }

  lemma ContainsIff3(s: Size3, o: Size3)
    ensures s.Contains(o) <==> forall a: Axis3 :: o.Index(a) <= s.Index(a)
    ensures s.Contains(s)
  {
    assert o.Index(Axis3.X) == o.x && o.Index(Axis3.Y) == o.y && o.Index(Axis3.Z) == o.z;
  }

  /**
   * `clamp` is never below `lo`; it is at most `hi` once `lo <= hi`, and
   * then it keeps every size already in range.  When `lo > hi` on an
   * axis, that axis gets `lo`.
   */
  lemma ClampBounds2(s: Size2, lo: Size2, hi: Size2)
    ensures s.Clamp(lo, hi).Contains(lo)
    ensures hi.Contains(lo) ==> hi.Contains(s.Clamp(lo, hi))
    ensures hi.Contains(lo) && s.Contains(lo) && hi.Contains(s) ==> s.Clamp(lo, hi) == s
    ensures lo.x > hi.x ==> s.Clamp(lo, hi).x == lo.x
  {
  }

  lemma ClampBounds3(s: Size3, lo: Size3, hi: Size3)
    ensures s.Clamp(lo, hi).Contains(lo)
    ensures hi.Contains(lo) ==> hi.Contains(s.Clamp(lo, hi))
    ensures hi.Contains(lo) && s.Contains(lo) && hi.Contains(s) ==> s.Clamp(lo, hi) == s
    ensures lo.x > hi.x ==> s.Clamp(lo, hi).x == lo.x
  {
  }

  /** `min` and `max` bound both operands componentwise. */
  lemma MinMaxBounds2(a: Size2, b: Size2)
    ensures a.Contains(a.Min(b)) && b.Contains(a.Min(b))
    ensures a.Max(b).Contains(a) && a.Max(b).Contains(b)
  {
  }

  lemma MinMaxBounds3(a: Size3, b: Size3)
    ensures a.Contains(a.Min(b)) && b.Contains(a.Min(b))
    ensures a.Max(b).Contains(a) && a.Max(b).Contains(b)
  {
  }

  /** The area of a non-empty size is positive, and scaling by `k` scales the area by `k * k`. */
  lemma AreaLaws(s: Size2, k: real)
    ensures !s.IsEmpty() ==> s.Area() > 0.0
    ensures s.Mul(k).Area() == k * k * s.Area()
    ensures Size2.Zero().Area() == 0.0
  {
    if !s.IsEmpty() {
      assert s.x > 0.0 && s.y > 0.0;
    }
  }

  lemma VolumeLaws(s: Size3, k: real)
    ensures !s.IsEmpty() ==> s.Volume() > 0.0
    ensures s.Mul(k).Volume() == k * k * k * s.Volume()
    ensures s.Volume() == Size2(s.x, s.y).Area() * s.z
  {
    if !s.IsEmpty() {
      assert s.x * s.y > 0.0;
    }
  }

  lemma LerpEndpoints2(a: Size2, b: Size2)
    ensures a.Lerp(b, 0.0) == a
    ensures a.Lerp(b, 1.0) == b
  {
  }

  lemma LerpEndpoints3(a: Size3, b: Size3)
    ensures a.Lerp(b, 0.0) == a
    ensures a.Lerp(b, 1.0) == b
  {
  }

  /** Size -> Vector -> Size and Vector -> Size -> Vector are identities; lengths are unwrapped. */
  lemma VectorRoundTrip2(s: Size2, v: Vector2, lx: Length, ly: Length)
    ensures Size2.FromVector(s.ToVector()) == s
    ensures Size2.FromVector(v).ToVector() == v
    ensures Size2.FromLengths(lx, ly) == Size2(lx.Get(), ly.Get())
  {
  }

  lemma VectorRoundTrip3(s: Size3, v: Vector3, lx: Length, ly: Length, lz: Length)
    ensures Size3.FromVector(s.ToVector()) == s
    ensures Size3.FromVector(v).ToVector() == v
    ensures Size3.FromLengths(lx, ly, lz) == Size3(lx.Get(), ly.Get(), lz.Get())
  {
  }

  /** The comparison masks: `cmp_ne` negates `cmp_eq`; `gt`/`ge` are `lt`/`le` swapped. */
  lemma Compare2(a: Size2, b: Size2)
    ensures a.CmpNe(b) == a.CmpEq(b).Not()
    ensures a.CmpGt(b) == b.CmpLt(a) && a.CmpGe(b) == b.CmpLe(a)
    ensures a.CmpEq(b).All() <==> a == b
  {
  }

  lemma Compare3(a: Size3, b: Size3)
    ensures a.CmpNe(b) == a.CmpEq(b).Not()
    ensures a.CmpGt(b) == b.CmpLt(a) && a.CmpGe(b) == b.CmpLe(a)
    ensures a.CmpEq(b).All() <==> a == b
  {
  }

  lemma Arithmetic2(a: Size2, b: Size2, s: real)
    ensures a.Add(b).Sub(b) == a && a.Neg().Neg() == a
    ensures s != 0.0 ==> a.Mul(s).Div(s) == a
  {
  }

  lemma Arithmetic3(a: Size3, b: Size3, s: real)
    ensures a.Add(b).Sub(b) == a && a.Neg().Neg() == a
    ensures s != 0.0 ==> a.Mul(s).Div(s) == a
  {
  }

  // ---------------------------------------------------------------------
  // In-place operators and `IndexMut`

  method AddAssign2(place: Place<Size2>, rhs: Size2)
    modifies place
    ensures place.value == old(place.value).Add(rhs)
  {
    place.value := place.value.(x := place.value.x + rhs.x);
    place.value := place.value.(y := place.value.y + rhs.y);
  }

  method SubAssign2(place: Place<Size2>, rhs: Size2)
    modifies place
    ensures place.value == old(place.value).Sub(rhs)
  {
    place.value := place.value.(x := place.value.x - rhs.x);
    place.value := place.value.(y := place.value.y - rhs.y);
  }

  method MulAssign2(place: Place<Size2>, scale: real)
    modifies place
    ensures place.value == old(place.value).Mul(scale)
  {
    place.value := place.value.(x := place.value.x * scale);
    place.value := place.value.(y := place.value.y * scale);
  }

  method DivAssign2(place: Place<Size2>, scale: real)
    requires scale != 0.0
    modifies place
    ensures place.value == old(place.value).Div(scale)
  {
    place.value := place.value.(x := place.value.x / scale);
    place.value := place.value.(y := place.value.y / scale);
  }

  method AddAssign3(place: Place<Size3>, rhs: Size3)
    modifies place
    ensures place.value == old(place.value).Add(rhs)
  {
    place.value := place.value.(x := place.value.x + rhs.x);
    place.value := place.value.(y := place.value.y + rhs.y);
    place.value := place.value.(z := place.value.z + rhs.z);
  }

  method SubAssign3(place: Place<Size3>, rhs: Size3)
    modifies place
    ensures place.value == old(place.value).Sub(rhs)
  {
    place.value := place.value.(x := place.value.x - rhs.x);
    place.value := place.value.(y := place.value.y - rhs.y);
    place.value := place.value.(z := place.value.z - rhs.z);
  }

  method MulAssign3(place: Place<Size3>, scale: real)
    modifies place
    ensures place.value == old(place.value).Mul(scale)
  {
    place.value := place.value.(x := place.value.x * scale);
    place.value := place.value.(y := place.value.y * scale);
    place.value := place.value.(z := place.value.z * scale);
  }

  method DivAssign3(place: Place<Size3>, scale: real)
    requires scale != 0.0
    modifies place
    ensures place.value == old(place.value).Div(scale)
  {
    place.value := place.value.(x := place.value.x / scale);
    place.value := place.value.(y := place.value.y / scale);
    place.value := place.value.(z := place.value.z / scale);
  }

  /** Writing a component through `IndexMut`: only the component of `axis` changes. */
  method IndexMut2(place: Place<Size2>, axis: Axis2, v: real)
    modifies place
    ensures place.value.Index(axis) == v
    ensures forall other: Axis2 :: other != axis ==> place.value.Index(other) == old(place.value).Index(other)
  {
    match axis
    case X => place.value := place.value.(x := v);
    case Y => place.value := place.value.(y := v);
  }

  method IndexMut3(place: Place<Size3>, axis: Axis3, v: real)
    modifies place
    ensures place.value.Index(axis) == v
    ensures forall other: Axis3 :: other != axis ==> place.value.Index(other) == old(place.value).Index(other)
  {
    match axis
    case X => place.value := place.value.(x := v);
    case Y => place.value := place.value.(y := v);
    case Z => place.value := place.value.(z := v);
  }

  // ---------------------------------------------------------------------
  // `Sum`: a left fold of `+` starting from zero

  function Total2(ss: seq<Size2>): Size2
  {
    if |ss| == 0 then Size2.Zero() else Total2(ss[..|ss| - 1]).Add(ss[|ss| - 1])
  }

  function Total3(ss: seq<Size3>): Size3
  {
    if |ss| == 0 then Size3.Zero() else Total3(ss[..|ss| - 1]).Add(ss[|ss| - 1])
  }

  method Sum2(ss: seq<Size2>) returns (r: Size2)
    ensures r == Total2(ss)
  {
    r := Size2.Zero();
    var i := 0;
    while i < |ss|
      invariant 0 <= i <= |ss|
      invariant r == Total2(ss[..i])
    {
      assert ss[..i + 1][..i] == ss[..i];
      r := r.Add(ss[i]);
      i := i + 1;
    }
    assert ss[..|ss|] == ss;
  }

  method Sum3(ss: seq<Size3>) returns (r: Size3)
    ensures r == Total3(ss)
  {
    r := Size3.Zero();
    var i := 0;
    while i < |ss|
      invariant 0 <= i <= |ss|
      invariant r == Total3(ss[..i])
    {
      assert ss[..i + 1][..i] == ss[..i];
      r := r.Add(ss[i]);
      i := i + 1;
    }
    assert ss[..|ss|] == ss;
  }

  /** Summing sizes and then converting is summing the converted vectors. */
  lemma {:induction false} Total2ToVector(ss: seq<Size2>)
    ensures Total2(ss).ToVector() == Vectors.Total2(seq(|ss|, i requires 0 <= i < |ss| => ss[i].ToVector()))
  {
    if |ss| > 0 {
      var vs := seq(|ss|, i requires 0 <= i < |ss| => ss[i].ToVector());
      var ss' := ss[..|ss| - 1];
      Total2ToVector(ss');
      assert vs[..|vs| - 1] == seq(|ss'|, i requires 0 <= i < |ss'| => ss'[i].ToVector());
    }
  }

  lemma {:induction false} Total3ToVector(ss: seq<Size3>)
    ensures Total3(ss).ToVector() == Vectors.Total3(seq(|ss|, i requires 0 <= i < |ss| => ss[i].ToVector()))
  {
    if |ss| > 0 {
      var vs := seq(|ss|, i requires 0 <= i < |ss| => ss[i].ToVector());
      var ss' := ss[..|ss| - 1];
      Total3ToVector(ss');
      assert vs[..|vs| - 1] == seq(|ss'|, i requires 0 <= i < |ss'| => ss'[i].ToVector());
    }
  }
}
