/** The coordinate axes of geometry/mod.rs, used to index points, vectors, sizes and masks. */
module Axes {
  datatype Axis2 = X | Y
  {
    /** Every axis once, in declaration order. */
    static const AXES: seq<Axis2> := [Axis2.X, Axis2.Y]

    /** The other axis. */
    function Next(): Axis2
    {
      match this
      case X => Axis2.Y
      case Y => Axis2.X
    }
  }

  datatype Axis3 = X | Y | Z
  {
    /** Every axis once, in declaration order. */
    static const AXES: seq<Axis3> := [Axis3.X, Axis3.Y, Axis3.Z]

    /** The cyclic successor X -> Y -> Z -> X. */
    function Next(): Axis3
    {
      match this
      case X => Axis3.Y
      case Y => Axis3.Z
      case Z => Axis3.X
    }
  }

  /** `next` on two axes is an involution without fixed points. */
  lemma Axis2NextInvolution(a: Axis2)
    ensures a.Next().Next() == a
    ensures a.Next() != a
  {
  }

  /** `next` on three axes has period three and no fixed points. */
  lemma Axis3NextCycle(a: Axis3)
    ensures a.Next().Next().Next() == a
    ensures a.Next() != a && a.Next().Next() != a
  {
  }

  /**
   * `AXES` holds each axis exactly once, starts at `X`, and `next` steps
   * from each entry to the following one, wrapping at the end.
   */
  lemma Axis2AxesComplete(a: Axis2)
    ensures a in Axis2.AXES
    ensures |Axis2.AXES| == 2 && Axis2.AXES[0] == Axis2.X
    ensures forall i, j :: 0 <= i < j < |Axis2.AXES| ==> Axis2.AXES[i] != Axis2.AXES[j]
    ensures forall i :: 0 <= i < |Axis2.AXES| ==> Axis2.AXES[i].Next() == Axis2.AXES[(i + 1) % |Axis2.AXES|]
  {
  }

  lemma Axis3AxesComplete(a: Axis3)
    ensures a in Axis3.AXES
    ensures |Axis3.AXES| == 3 && Axis3.AXES[0] == Axis3.X
    ensures forall i, j :: 0 <= i < j < |Axis3.AXES| ==> Axis3.AXES[i] != Axis3.AXES[j]
    ensures forall i :: 0 <= i < |Axis3.AXES| ==> Axis3.AXES[i].Next() == Axis3.AXES[(i + 1) % |Axis3.AXES|]
  {
  }
}
