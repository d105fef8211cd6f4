/**
 * Boolean masks of mask.rs: one flag per axis, produced by the
 * componentwise comparisons and consumed by `select`.
 */
module Masks {
  import opened Axes
  import opened Places

  datatype Mask2 = Mask2(x: bool, y: bool)
  {
    function All(): bool { x && y }

    function Any(): bool { x || y }

    function None(): bool { !Any() }

    function Not(): Mask2 { Mask2(!x, !y) }

    function And(rhs: Mask2): Mask2 { Mask2(x && rhs.x, y && rhs.y) }

    function Or(rhs: Mask2): Mask2 { Mask2(x || rhs.x, y || rhs.y) }

    /** The flag of one axis. */
    function Index(axis: Axis2): bool
    {
      match axis
      case X => x
      case Y => y
    }
  }

  datatype Mask3 = Mask3(x: bool, y: bool, z: bool)
  {
    function All(): bool { x && y && z }

    function Any(): bool { x || y || z }

    function None(): bool { !Any() }

    function Not(): Mask3 { Mask3(!x, !y, !z) }

    function And(rhs: Mask3): Mask3 { Mask3(x && rhs.x, y && rhs.y, z && rhs.z) }

    function Or(rhs: Mask3): Mask3 { Mask3(x || rhs.x, y || rhs.y, z || rhs.z) }

    /** The flag of one axis. */
    function Index(axis: Axis3): bool
    {
      match axis
      case X => x
      case Y => y
      case Z => z
    }
  }

  /** `all` holds iff every flag read through `Index` is set, `any` iff some is, `none` iff no flag is. */
  lemma Mask2Quantifiers(m: Mask2)
    ensures m.All() <==> forall a: Axis2 :: m.Index(a)
    ensures m.Any() <==> exists a: Axis2 :: m.Index(a)
    ensures m.None() <==> forall a: Axis2 :: !m.Index(a)
    ensures m.All() ==> m.Any()
  {
    assert m.Index(Axis2.X) == m.x && m.Index(Axis2.Y) == m.y;
  }

  lemma Mask3Quantifiers(m: Mask3)
    ensures m.All() <==> forall a: Axis3 :: m.Index(a)
    ensures m.Any() <==> exists a: Axis3 :: m.Index(a)
    ensures m.None() <==> forall a: Axis3 :: !m.Index(a)
    ensures m.All() ==> m.Any()
  {
    assert m.Index(Axis3.X) == m.x && m.Index(Axis3.Y) == m.y && m.Index(Axis3.Z) == m.z;
  }

  /** `not`, `and` and `or` act flag by flag; `not` is an involution and De Morgan's laws hold. */
  lemma Mask2Algebra(a: Mask2, b: Mask2)
    ensures forall axis: Axis2 :: a.Not().Index(axis) == !a.Index(axis)
    ensures forall axis: Axis2 :: a.And(b).Index(axis) == (a.Index(axis) && b.Index(axis))
    ensures forall axis: Axis2 :: a.Or(b).Index(axis) == (a.Index(axis) || b.Index(axis))
    ensures a.Not().Not() == a
    ensures a.And(b).Not() == a.Not().Or(b.Not())
    ensures a.Or(b).Not() == a.Not().And(b.Not())
  {
  }

  lemma Mask3Algebra(a: Mask3, b: Mask3)
    ensures forall axis: Axis3 :: a.Not().Index(axis) == !a.Index(axis)
    ensures forall axis: Axis3 :: a.And(b).Index(axis) == (a.Index(axis) && b.Index(axis))
    ensures forall axis: Axis3 :: a.Or(b).Index(axis) == (a.Index(axis) || b.Index(axis))
    ensures a.Not().Not() == a
    ensures a.And(b).Not() == a.Not().Or(b.Not())
    ensures a.Or(b).Not() == a.Not().And(b.Not())
  {
  }

  /** Writing a flag through `IndexMut`: only the flag of `axis` changes. */
  method IndexMut2(place: Place<Mask2>, axis: Axis2, flag: bool)
    modifies place
    ensures place.value.Index(axis) == flag
    ensures forall other: Axis2 :: other != axis ==> place.value.Index(other) == old(place.value).Index(other)
  {
    match axis
    case X => place.value := place.value.(x := flag);
    case Y => place.value := place.value.(y := flag);
  }

  method IndexMut3(place: Place<Mask3>, axis: Axis3, flag: bool)
    modifies place
    ensures place.value.Index(axis) == flag
    ensures forall other: Axis3 :: other != axis ==> place.value.Index(other) == old(place.value).Index(other)
  {
    match axis
    case X => place.value := place.value.(x := flag);
    case Y => place.value := place.value.(y := flag);
    case Z => place.value := place.value.(z := flag);
  }

  /** Two masks that agree on every axis are equal, so `IndexMut` determines the whole new mask. */
  lemma Mask2Ext(a: Mask2, b: Mask2)
    requires forall axis: Axis2 :: a.Index(axis) == b.Index(axis)
    ensures a == b
  {
    assert a.Index(Axis2.X) == b.Index(Axis2.X) && a.Index(Axis2.Y) == b.Index(Axis2.Y);
  }

  lemma Mask3Ext(a: Mask3, b: Mask3)
    requires forall axis: Axis3 :: a.Index(axis) == b.Index(axis)
    ensures a == b
  {
    assert a.Index(Axis3.X) == b.Index(Axis3.X) && a.Index(Axis3.Y) == b.Index(Axis3.Y);
    assert a.Index(Axis3.Z) == b.Index(Axis3.Z);
  }
}
