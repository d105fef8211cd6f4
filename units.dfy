/** The one-dimensional quantities of units.rs: lengths, times and angles. */
module Units {
  import Num
  import opened Places

  /** A length along one axis of some space (the space tag is not modelled). */
  datatype Length = Length(value: real)
  {
    static function New(v: real): Length { Length(v) }

    function Get(): real { value }

    static function Zero(): Length { Length(0.0) }

    static function One(): Length { Length(1.0) }

    function Lerp(other: Length, t: real): Length
    {
      var oneMinusT := 1.0 - t;
      Length(oneMinusT * value + t * other.value)
    }

    /** The generic `min` under the order of the wrapped values. */
    function Min(other: Length): Length { Num.MinBy(LengthLe, this, other) }

    function Max(other: Length): Length { Num.MaxBy(LengthLe, this, other) }

    function Neg(): Length { Length(-value) }

    function Add(rhs: Length): Length { Length(value + rhs.value) }

    function Sub(rhs: Length): Length { Length(value - rhs.value) }

    function Mul(scale: real): Length { Length(value * scale) }

    function Div(scale: real): Length
      requires scale != 0.0
    {
      Length(value / scale)
    }
  }

  /** `PartialOrd` of `Length` compares the wrapped values. */
  predicate LengthLe(a: Length, b: Length)
  {
    a.value <= b.value
  }

  /** A span of time, used as the parameter of a ray. */
  datatype Time = Time(value: real)
  {
    function Add(rhs: Time): Time { Time(value + rhs.value) }

    function Sub(rhs: Time): Time { Time(value - rhs.value) }
  }

  /** An angle, stored in radians. */
  datatype Angle = Angle(rad: real)
  {
    static function FromRadians(rad: real): Angle { Angle(rad) }

    function Radians(): real { rad }

    static function Zero(): Angle { Angle(0.0) }

    function Neg(): Angle { Angle(-rad) }

    function Add(rhs: Angle): Angle { Angle(rad + rhs.rad) }

    function Sub(rhs: Angle): Angle { Angle(rad - rhs.rad) }
  }

  lemma LengthNewGet(v: real, l: Length)
    ensures Length.New(v).Get() == v
    ensures Length.New(l.Get()) == l
  {
  }

  lemma LengthLerpEndpoints(a: Length, b: Length)
    ensures a.Lerp(b, 0.0) == a
    ensures a.Lerp(b, 1.0) == b
  {
  }

  /** `min` keeps the first operand exactly when it is not above the second; `max` when it is not below. */
  lemma LengthMinMax(a: Length, b: Length)
    ensures a.Min(b) == (if a.value <= b.value then a else b)
    ensures a.Max(b) == (if a.value >= b.value then a else b)
    ensures a.Min(b).value <= a.value && a.Min(b).value <= b.value
    ensures a.Max(b).value >= a.value && a.Max(b).value >= b.value
  {
  }

  lemma LengthArithmetic(a: Length, b: Length, s: real)
    ensures a.Add(b).Sub(b) == a && a.Sub(b).Add(b) == a
    ensures a.Neg().Neg() == a && a.Add(a.Neg()) == Length.Zero()
    ensures s != 0.0 ==> a.Mul(s).Div(s) == a
    ensures a.Mul(1.0) == a && a.Add(Length.Zero()) == a
  {
  }

  lemma AngleRadians(r: real, a: Angle, b: Angle)
    ensures Angle.FromRadians(r).Radians() == r
    ensures a.Neg().Radians() == -a.Radians()
    ensures a.Add(b).Radians() == a.Radians() + b.Radians()
    ensures a.Add(b).Sub(b) == a
  {
  }

  // In-place operators of `Length`.

  method AddAssign(place: Place<Length>, rhs: Length)
    modifies place
    ensures place.value == old(place.value).Add(rhs)
  {
    place.value := place.value.(value := place.value.value + rhs.value);
  }

  method SubAssign(place: Place<Length>, rhs: Length)
    modifies place
    ensures place.value == old(place.value).Sub(rhs)
  {
    place.value := place.value.(value := place.value.value - rhs.value);
  }

  method MulAssign(place: Place<Length>, scale: real)
    modifies place
    ensures place.value == old(place.value).Mul(scale)
  {
    place.value := place.value.(value := place.value.value * scale);
  }

  method DivAssign(place: Place<Length>, scale: real)
    requires scale != 0.0
    modifies place
    ensures place.value == old(place.value).Div(scale)
  {
    place.value := place.value.(value := place.value.value / scale);
  }

  /** The left fold `zero + ls[0] + ls[1] + ...` that `Sum` computes. */
  function TotalLength(ls: seq<Length>): Length
  {
    if |ls| == 0 then Length.Zero() else TotalLength(ls[..|ls| - 1]).Add(ls[|ls| - 1])
  }

  method Sum(ls: seq<Length>) returns (r: Length)
    ensures r == TotalLength(ls)
  {
    r := Length.Zero();
    var i := 0;
    while i < |ls|
      invariant 0 <= i <= |ls|
      invariant r == TotalLength(ls[..i])
    {
      assert ls[..i + 1][..i] == ls[..i];
      r := r.Add(ls[i]);
      i := i + 1;
    }
    assert ls[..|ls|] == ls;
  }

  /** The sum of a concatenation is the sum of the sums; the sum of nothing is zero. */
  lemma {:induction false} TotalLengthAppend(a: seq<Length>, b: seq<Length>)
    ensures TotalLength(a + b) == TotalLength(a).Add(TotalLength(b))
    ensures TotalLength([]) == Length.Zero()
    decreases |b|
  {
    if |b| == 0 {
      assert a + b == a;
    } else {
      var b' := b[..|b| - 1];
      assert (a + b)[..|a + b| - 1] == a + b';
      TotalLengthAppend(a, b');
    }
  }
}
