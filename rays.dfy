/** Rays of ray.rs: an origin, a direction and a payload, walked along by a time parameter. */
module Rays {
  import opened Vectors
  import opened Points
  import opened Units

  datatype Ray<D> = Ray(origin: Point3, dir: Vector3, data: D)
  {
    /** `with_data` stores the three parts as given. */
    static function WithData(origin: Point3, dir: Vector3, data: D): Ray<D> { Ray(origin, dir, data) }

    /**
     * `normalize` replaces the direction by its unit multiple. The square root
     * behind it is not modelled: the caller passes the normalized direction.
     */
    function Normalize(unitDir: Vector3): Ray<D> { this.(dir := unitDir) }

    /** `at(t)`: the point reached after time `t`, `origin + dir * t`. */
    function At(t: Time): Point3 { origin.AddVector(dir.Mul(t.value)) }
  }

  /** `new` is `with_data` with the unit payload. */
  function New(origin: Point3, dir: Vector3): Ray<()> { Ray.WithData(origin, dir, ()) }

  lemma ConstructorsStore<D>(origin: Point3, dir: Vector3, data: D)
    ensures Ray.WithData(origin, dir, data).origin == origin
    ensures Ray.WithData(origin, dir, data).dir == dir
    ensures Ray.WithData(origin, dir, data).data == data
    ensures New(origin, dir) == Ray(origin, dir, ())
  {
  }

  /** Normalizing changes the direction only. */
  lemma NormalizeKeepsRest<D>(r: Ray<D>, unitDir: Vector3)
    ensures r.Normalize(unitDir).origin == r.origin && r.Normalize(unitDir).data == r.data
    ensures r.Normalize(unitDir).dir == unitDir
  {
  }

  /**
   * The ray starts at its origin, is displaced by `dir * t` after time `t`,
   * and two times are `dir` times their difference apart.
   */
  lemma AtLaws<D>(r: Ray<D>, t: Time, s: Time)
    ensures r.At(Time(0.0)) == r.origin
    ensures r.At(t).Sub(r.origin) == r.dir.Mul(t.value)
    ensures r.At(t).Sub(r.At(s)) == r.dir.Mul(t.value - s.value)
    ensures r.At(t.Add(s)) == r.At(t).AddVector(r.dir.Mul(s.value))
  {
    var o, d := r.origin, r.dir;
    assert r.At(t).Sub(o) == d.Mul(t.value) by {
      assert o.x + d.x * t.value - o.x == d.x * t.value;
    }
    assert d.x * t.value - d.x * s.value == d.x * (t.value - s.value);
    assert d.y * t.value - d.y * s.value == d.y * (t.value - s.value);
    assert d.z * t.value - d.z * s.value == d.z * (t.value - s.value);
    assert d.x * (t.value + s.value) == d.x * t.value + d.x * s.value;
    assert d.y * (t.value + s.value) == d.y * t.value + d.y * s.value;
    assert d.z * (t.value + s.value) == d.z * t.value + d.z * s.value;
  }
}
