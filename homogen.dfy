/** Homogeneous coordinates of homogen.rs: points have `w = 1`, directions `w = 0`. */
module Homogen {
  import opened Wrappers
  import opened Vectors
  import opened Points

  datatype HomogeneousVector = HomogeneousVector(x: real, y: real, z: real, w: real)
  {
    static function New(x: real, y: real, z: real, w: real): HomogeneousVector
    {
      HomogeneousVector(x, y, z, w)
    }

    /** `Point2::try_from`: divides by a positive `w`, fails otherwise (the third coordinate is dropped). */
    function ToPoint2(): Result<Point2, ()>
    {
      if w > 0.0 then
        var wInv := 1.0 / w;
        Ok(Point2(x * wInv, y * wInv))
      else
        Err(())
    }

    /** `Point3::try_from`: divides by a positive `w`, fails otherwise. */
    function ToPoint3(): Result<Point3, ()>
    {
      if w > 0.0 then
        var wInv := 1.0 / w;
        Ok(Point3(x * wInv, y * wInv, z * wInv))
      else
        Err(())
    }
  }

  function FromVector2(v: Vector2): HomogeneousVector { HomogeneousVector(v.x, v.y, 0.0, 0.0) }

  function FromVector3(v: Vector3): HomogeneousVector { HomogeneousVector(v.x, v.y, v.z, 0.0) }

  function FromPoint2(p: Point2): HomogeneousVector { HomogeneousVector(p.x, p.y, 0.0, 1.0) }

  function FromPoint3(p: Point3): HomogeneousVector { HomogeneousVector(p.x, p.y, p.z, 1.0) }

  /**
   * Conversion succeeds exactly when `w > 0`, and then the point times `w`
   * gives back the homogeneous coordinates.
   */
  lemma ToPoint3Law(h: HomogeneousVector)
    ensures h.ToPoint3().Ok? <==> h.w > 0.0
    ensures h.ToPoint3().Ok? ==>
      h.ToPoint3().value.x * h.w == h.x && h.ToPoint3().value.y * h.w == h.y && h.ToPoint3().value.z * h.w == h.z
  {
    if h.w > 0.0 {
      var wInv := 1.0 / h.w;
      assert wInv * h.w == 1.0;
      assert h.x * wInv * h.w == h.x * (wInv * h.w);
      assert h.y * wInv * h.w == h.y * (wInv * h.w);
      assert h.z * wInv * h.w == h.z * (wInv * h.w);
    }
  }

  lemma ToPoint2Law(h: HomogeneousVector)
    ensures h.ToPoint2().Ok? <==> h.w > 0.0
    ensures h.ToPoint2().Ok? ==> h.ToPoint2().value.x * h.w == h.x && h.ToPoint2().value.y * h.w == h.y
  {
    if h.w > 0.0 {
      var wInv := 1.0 / h.w;
      assert wInv * h.w == 1.0;
      assert h.x * wInv * h.w == h.x * (wInv * h.w);
      assert h.y * wInv * h.w == h.y * (wInv * h.w);
    }
  }

  /** Points survive the trip through homogeneous coordinates; 2D conversion ignores `z`. */
  lemma PointRoundTrip(p2: Point2, p3: Point3)
    ensures FromPoint2(p2).ToPoint2() == Ok(p2)
    ensures FromPoint3(p3).ToPoint3() == Ok(p3)
    ensures FromPoint3(p3).ToPoint2() == Ok(Point2(p3.x, p3.y))
  {
  }

  /** Directions lie at infinity: they never convert to points. */
  lemma VectorsAtInfinity(v2: Vector2, v3: Vector3)
    ensures FromVector2(v2).ToPoint2() == Err(()) && FromVector2(v2).ToPoint3() == Err(())
    ensures FromVector3(v3).ToPoint2() == Err(()) && FromVector3(v3).ToPoint3() == Err(())
  {
  }

  /** Multiplying all four coordinates by a positive factor denotes the same point. */
  lemma ScaleInvariance(h: HomogeneousVector, k: real)
    requires k > 0.0
    ensures HomogeneousVector(k * h.x, k * h.y, k * h.z, k * h.w).ToPoint3() == h.ToPoint3()
  {
    var g := HomogeneousVector(k * h.x, k * h.y, k * h.z, k * h.w);
    if h.w > 0.0 {
      assert g.w > 0.0;
      Rescale(h.x, k, h.w);
      Rescale(h.y, k, h.w);
      Rescale(h.z, k, h.w);
      assert g.ToPoint3().value == h.ToPoint3().value;
    } else {
      assert g.w <= 0.0;
    }
  }

  lemma Rescale(a: real, k: real, w: real)
    requires k > 0.0 && w > 0.0
    ensures k * a * (1.0 / (k * w)) == a * (1.0 / w)
  {
    assert (1.0 / (k * w)) * k == 1.0 / w;
  }
}
