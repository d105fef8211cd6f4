# rt3 exact-arithmetic core in Dafny

This project models the exact-arithmetic core of rt3, a Rust geometry library, and proves properties of the model. It covers:

- the matrix transforms `Transform2` and `Transform3`;
- the quaternion rotation `Rotation3` and the angle rotation `Rotation2`;
- translations and scales;
- homogeneous vectors;
- axis-aligned boxes;
- the vector, point, size, length, angle, mask, ray and axis values those are built from.

Modelling conventions:

- The generic scalar `T` is Dafny's `real`. Every modelled operation uses only `+ - * /`, comparisons and, for `floor`/`ceil`/`round`, the exact floor of a real.
- The phantom space tags (`Src`, `Dst`, `Normal<…>`) carry no data and are dropped. A normal is a `Vector2`/`Vector3`.
- Matrices are row-major records (`Mat3x2`, `Mat4`). A point is a row vector multiplied on the left, so the translation sits in the last row.
- A transform holds its forward matrix `mat` and a cached inverse `matInv`. The invariant `Valid()` says the two are each other's two-sided inverse.
  - `try_new`, `identity`, `translation`, `scale` and `orthographic_*` establish it.
  - `inverse` and `*` preserve it.

One module per source file:

| module | models |
|---|---|
| `Num` | `num.rs` |
| `Axes` | `mod.rs` |
| `Masks` | `mask.rs` |
| `Vectors` | `vector.rs` |
| `Points` | `point.rs` |
| `Sizes` | `size.rs` |
| `Units` | `units.rs` |
| `Boxes` | `box.rs` |
| `Scales` | `scale.rs` |
| `Translations` | `translation.rs` |
| `Rotations` | `rotation.rs` |
| `Homogen` | `homogen.rs` |
| `Matrices` | the matrix helpers of `transform.rs` |
| `Transforms` | the transforms in `transform.rs` |
| `Rays` | `ray.rs` |

Shared pieces:

- `Wrappers` holds `Option`/`Result`.
- `Places` holds the mutable cell that stands for a `&mut` place. The `*=`-style operators and `IndexMut` are methods that update it.
- `Expansions` holds the polynomial identities behind the quaternion proofs.

Where Rust panics through `expect` or `debug_assert!`, the model has a precondition instead. Examples: `new` on a singular matrix, and `then` on operands that are not normalized.

Real division needs a non-zero divisor, so the division operators require one. Floating point would return an infinity or NaN there.

## Model

| member | source | states |
|---|---|---|
| Num.Min | src/core/num.rs:3-11 | `min` at the scalar type is below both arguments and is one of them |
| Num.Max | src/core/num.rs:13-21 | `max` at the scalar type is above both arguments and is one of them |
| Num.MinMaxTiesToFirst | src/core/num.rs:3-21 | for arguments that compare both ways round, `min` and `max` both return the first argument |
| Num.MinMaxUnordered | src/core/num.rs:3-21 | for arguments that compare neither way round (a NaN), `min` and `max` both return the second argument |
| Num.MinMaxBounds | src/core/num.rs:3-21 | under a comparison that is reflexive on the inputs and relates them, `min` is below both, `max` is above both, and each returns one of its inputs |
| Num.IntegerRoundingIsIdentity | src/core/num.rs:199-222 | the integer `round`, `ceil` and `floor` return their argument |
| Num.Floor | src/core/num.rs:237-240 | `floor` is an integer value `r` with `r <= x < r + 1` |
| Num.Ceil | src/core/num.rs:231-234 | `ceil` is an integer value `r` with `r - 1 < x <= r` |
| Num.Round | src/core/num.rs:225-228 | `round`, which is `floor(x + 0.5)`, is an integer within half a unit of `x`, with halves rounded up |
| Num.ApproxEqEpsAll | src/core/num.rs:107-119 | array `approx_eq_eps` holds iff every pair of elements at the same index satisfies the element predicate |
| Num.RealApproxEqEpsLaws | src/core/num.rs:247-250 | the scalar `approx_eq_eps` (distance below `eps`) is symmetric, holds for equal values iff `eps > 0`, and never holds for `eps <= 0` |
| Axes.Axis2NextInvolution | src/core/geometry/mod.rs:26-38 | `Axis2::next` applied twice is the identity, and it never returns its argument |
| Axes.Axis3NextCycle | src/core/geometry/mod.rs:47-60 | `Axis3::next` applied three times is the identity, and neither one nor two applications return the argument |
| Axes.Axis2AxesComplete | src/core/geometry/mod.rs:27 | `AXES` holds every `Axis2` exactly once, starts with X, and lists the axes in `next` order |
| Axes.Axis3AxesComplete | src/core/geometry/mod.rs:48 | `AXES` holds every `Axis3` exactly once, starts with X, and lists the axes in `next` order |
| Masks.Mask2Quantifiers | src/core/geometry/mask.rs:23-39 | `all` says every flag is set, `any` says some flag is set, `none` says no flag is set, and `all` implies `any` |
| Masks.Mask3Quantifiers | src/core/geometry/mask.rs:74-90 | `all` says every flag is set, `any` says some flag is set, `none` says no flag is set, and `all` implies `any` |
| Masks.Mask2Algebra | src/core/geometry/mask.rs:41-57 | `not`/`and`/`or` act flag by flag, `not` is an involution, and De Morgan's laws hold |
| Masks.Mask3Algebra | src/core/geometry/mask.rs:92-108 | `not`/`and`/`or` act flag by flag, `not` is an involution, and De Morgan's laws hold |
| Masks.IndexMut2 | src/core/geometry/mask.rs:130-138 | writing through `index_mut` sets the chosen flag and leaves the other flag unchanged |
| Masks.IndexMut3 | src/core/geometry/mask.rs:153-162 | writing through `index_mut` sets the chosen flag and leaves the other flags unchanged |
| Masks.Mask2Ext | src/core/geometry/mask.rs:118-128 | two masks with the same flag at every axis are equal |
| Masks.Mask3Ext | src/core/geometry/mask.rs:140-151 | two masks with the same flag at every axis are equal |
| Vectors.DotCommutes2 | src/core/geometry/vector.rs:334-341 | the 2D `dot` is commutative |
| Vectors.DotCommutes3 | src/core/geometry/vector.rs:623-630 | the 3D `dot` is commutative |
| Vectors.Cross2Antisymmetric | src/core/geometry/vector.rs:343-350 | the 2D `cross` is antisymmetric, and a vector crossed with itself gives 0 |
| Vectors.Cross3Laws | src/core/geometry/vector.rs:632-645 | the 3D `cross` is antisymmetric and orthogonal to both operands |
| Vectors.LerpEndpoints2 | src/core/geometry/vector.rs:321-332 | `lerp` returns `self` at 0 and `other` at 1 |
| Vectors.LerpEndpoints3 | src/core/geometry/vector.rs:609-621 | `lerp` returns `self` at 0 and `other` at 1 |
| Vectors.MinMaxBounds2 | src/core/geometry/vector.rs:857-869 | the componentwise `min` is below both operands and `max` is above both |
| Vectors.MinMaxBounds3 | src/core/geometry/vector.rs:939-959 | the componentwise `min` is below both operands and `max` is above both |
| Vectors.ClampBounds2 | src/core/geometry/vector.rs:869-873 | when `lo <= hi`, `clamp(lo, hi)` lies in `[lo, hi]` and leaves a vector already inside unchanged |
| Vectors.ClampBounds3 | src/core/geometry/vector.rs:959-963 | when `lo <= hi`, `clamp(lo, hi)` lies in `[lo, hi]` and leaves a vector already inside unchanged |
| Vectors.Compare2 | src/core/geometry/vector.rs:800-856 | `cmp_le(a, b).all()` holds iff `a <= b` componentwise; `cmp_eq(...).all()` holds iff the vectors are equal; `cmp_ne` is the negation of `cmp_eq`; `gt`/`ge` are `lt`/`le` with the operands swapped; `lt` is the negation of `ge` |
| Vectors.Compare3 | src/core/geometry/vector.rs:876-937 | `cmp_le(a, b).all()` holds iff `a <= b` componentwise; `cmp_eq(...).all()` holds iff the vectors are equal; `cmp_ne` is the negation of `cmp_eq`; `gt`/`ge` are `lt`/`le` with the operands swapped; `lt` is the negation of `ge` |
| Vectors.FaceTowardsLaw | src/core/geometry/vector.rs:727-737 | `face_towards(v)` has a non-negative dot product with `v`; it returns the normal itself iff that dot product was already non-negative, and its negation otherwise |
| Vectors.ProjectOntoOrthogonal2 | src/core/geometry/vector.rs:381-388 | after subtracting `project_onto(onto)`, what is left is orthogonal to `onto`, and projecting a vector onto itself returns it |
| Vectors.ProjectOntoOrthogonal3 | src/core/geometry/vector.rs:677-684 | after subtracting `project_onto(onto)`, what is left is orthogonal to `onto`, and projecting a vector onto itself returns it |
| Vectors.ReflectLaws2 | src/core/geometry/vector.rs:390-399 | reflecting in a unit normal negates the component along the normal, keeps the squared length, and is an involution |
| Vectors.ReflectLaws3 | src/core/geometry/vector.rs:686-695 | reflecting in a unit normal negates the component along the normal, keeps the squared length, and is an involution |
| Vectors.ArithmeticInverses2 | src/core/geometry/vector.rs:1041-1212 | negation is an involution, `-` undoes `+`, `+` commutes, and dividing by a nonzero scalar undoes multiplying by it |
| Vectors.ArithmeticInverses3 | src/core/geometry/vector.rs:1041-1212 | negation is an involution, `-` undoes `+`, `+` commutes, and dividing by a nonzero scalar undoes multiplying by it |
| Vectors.ComponentMulDiv2 | src/core/geometry/vector.rs:352-370 | `component_div` by a vector with no zero component undoes `component_mul` |
| Vectors.ComponentMulDiv3 | src/core/geometry/vector.rs:645-663 | `component_div` by a vector with no zero component undoes `component_mul` |
| Vectors.Constructors2 | src/core/geometry/vector.rs:28-427 | `splat(v)` has `v` at every axis, `zero`/`one` hold 0 and 1 at every axis, and `extend(z)` keeps x, y and adds z |
| Vectors.Constructors3 | src/core/geometry/vector.rs:28-528 | `splat(v)` has `v` at every axis, and `zero`/`one` hold 0 and 1 at every axis |
| Vectors.Rounding2 | src/core/geometry/vector.rs:1231-1272 | componentwise `floor <= v <= ceil`, and `round` is within half a unit of `v` (including `+0.5`); every component of the three results is a whole number |
| Vectors.Rounding3 | src/core/geometry/vector.rs:1231-1272 | componentwise `floor <= v <= ceil`, and `round` is within half a unit of `v` (including `+0.5`); every component of the three results is a whole number |
| Vectors.SelectLaws2 | src/core/geometry/mask.rs:187-195 | `select` takes each component from the first vector where the flag is set and from the second otherwise; an all-true mask returns the first vector and an all-false mask the second; negating the mask swaps the operands |
| Vectors.SelectLaws3 | src/core/geometry/mask.rs:196-204 | `select` takes each component from the first vector where the flag is set and from the second otherwise; an all-true mask returns the first vector and an all-false mask the second; negating the mask swaps the operands |
| Vectors.AddAssign2 | src/core/geometry/vector.rs:1147-1153 | `+=` leaves the vector equal to the old value `+` rhs |
| Vectors.SubAssign2 | src/core/geometry/vector.rs:1214-1220 | `-=` leaves the vector equal to the old value `-` rhs |
| Vectors.MulAssign2 | src/core/geometry/vector.rs:1077-1083 | `*=` leaves the vector equal to the old value `*` rhs |
| Vectors.DivAssign2 | src/core/geometry/vector.rs:1112-1118 | `/=` leaves the vector equal to the old value `/` rhs |
| Vectors.AddAssign3 | src/core/geometry/vector.rs:1155-1162 | `+=` leaves the vector equal to the old value `+` rhs |
| Vectors.SubAssign3 | src/core/geometry/vector.rs:1222-1229 | `-=` leaves the vector equal to the old value `-` rhs |
| Vectors.MulAssign3 | src/core/geometry/vector.rs:1085-1092 | `*=` leaves the vector equal to the old value `*` rhs |
| Vectors.DivAssign3 | src/core/geometry/vector.rs:1120-1127 | `/=` leaves the vector equal to the old value `/` rhs |
| Vectors.IndexMut2 | src/core/geometry/vector.rs:1007-1015 | writing through `index_mut` sets the chosen component and leaves the other unchanged |
| Vectors.IndexMut3 | src/core/geometry/vector.rs:1030-1039 | writing through `index_mut` sets the chosen component and leaves the others unchanged |
| Vectors.Sum2 | src/core/geometry/vector.rs:1164-1178 | the `Sum` loop returns the left fold of `+` from zero |
| Vectors.Sum3 | src/core/geometry/vector.rs:1180-1194 | the `Sum` loop returns the left fold of `+` from zero |
| Vectors.Total2Append | src/core/geometry/vector.rs:1164-1178 | the sum of an empty sequence is zero, and the sum of a concatenation is the sum of the two sums |
| Vectors.Total3Append | src/core/geometry/vector.rs:1180-1194 | the sum of an empty sequence is zero, and the sum of a concatenation is the sum of the two sums |
| Points.SelectLaws2 | src/core/geometry/mask.rs:168-176 | `select` takes each coordinate from the first point where the flag is set and from the second otherwise; an all-true mask returns the first point and an all-false mask the second |
| Points.SelectLaws3 | src/core/geometry/mask.rs:177-186 | `select` takes each coordinate from the first point where the flag is set and from the second otherwise; an all-true mask returns the first point and an all-false mask the second |
| Points.OriginIsZero | src/core/geometry/point.rs:191-198 | `origin()` is all-zero and equals both `zero()` and the zero vector as a point (2D and 3D) |
| Points.MinMaxClamp2 | src/core/geometry/point.rs:385-403 | `min` is below both points and `max` above both; when `lo <= hi`, `clamp` lies in `[lo, hi]` and leaves a point already inside unchanged |
| Points.MinMaxClamp3 | src/core/geometry/point.rs:405-431 | `min` is below both points and `max` above both; when `lo <= hi`, `clamp` lies in `[lo, hi]` and leaves a point already inside unchanged |
| Points.LerpEndpoints2 | src/core/geometry/point.rs:251-262 | `lerp` returns `self` at 0 and `other` at 1 |
| Points.LerpEndpoints3 | src/core/geometry/point.rs:361-373 | `lerp` returns `self` at 0 and `other` at 1 |
| Points.AffineLaws2 | src/core/geometry/point.rs:608-727 | `p + (q - p) == q`; `(p + v) - v == p` and `(p - v) + v == p`, for vectors `v` and for sizes; `(p + v) - p == v`; `to_vector` and its inverse round-trip; `p - origin` is `p.to_vector()` |
| Points.AffineLaws3 | src/core/geometry/point.rs:617-760 | `p + (q - p) == q`; `(p + v) - v == p` and `(p - v) + v == p`, for vectors `v` and for sizes; `(p + v) - p == v`; `to_vector` and its inverse round-trip; `p - origin` is `p.to_vector()` |
| Points.ScalarLaws2 | src/core/geometry/point.rs:520-590 | negation is an involution, dividing by a nonzero scalar undoes multiplying by it, and scalar multiplication commutes with `to_vector` |
| Points.ScalarLaws3 | src/core/geometry/point.rs:529-598 | negation is an involution, dividing by a nonzero scalar undoes multiplying by it, and scalar multiplication commutes with `to_vector` |
| Points.Rounding2 | src/core/geometry/point.rs:762-796 | every coordinate of `floor`, `ceil` and `round` is a whole number; `floor <= p < floor + 1` and `ceil - 1 < p <= ceil` componentwise; `round` is within half a unit of `p` (including `+0.5`) |
| Points.Rounding3 | src/core/geometry/point.rs:769-803 | every coordinate of `floor`, `ceil` and `round` is a whole number; `floor <= p < floor + 1` and `ceil - 1 < p <= ceil` componentwise; `round` is within half a unit of `p` (including `+0.5`) |
| Points.MulAssign2 | src/core/geometry/point.rs:556-562 | `*=` leaves the point equal to the old value `*` rhs |
| Points.DivAssign2 | src/core/geometry/point.rs:591-597 | `/=` leaves the point equal to the old value `/` rhs |
| Points.AddAssignVector2 | src/core/geometry/point.rs:626-632 | `+= vector` leaves the point equal to the old value `+` the vector |
| Points.SubAssignVector2 | src/core/geometry/point.rs:661-667 | `-= vector` leaves the point equal to the old value `-` the vector |
| Points.AddAssignSize2 | src/core/geometry/point.rs:705-710 | `+= size` leaves the point equal to the old value `+` the size |
| Points.SubAssignSize2 | src/core/geometry/point.rs:721-726 | `-= size` leaves the point equal to the old value `-` the size |
| Points.MulAssign3 | src/core/geometry/point.rs:564-571 | `*=` leaves the point equal to the old value `*` rhs |
| Points.DivAssign3 | src/core/geometry/point.rs:599-605 | `/=` leaves the point equal to the old value `/` rhs |
| Points.AddAssignVector3 | src/core/geometry/point.rs:634-641 | `+= vector` leaves the point equal to the old value `+` the vector |
| Points.SubAssignVector3 | src/core/geometry/point.rs:669-676 | `-= vector` leaves the point equal to the old value `-` the vector |
| Points.AddAssignSize3 | src/core/geometry/point.rs:737-743 | `+= size` leaves the point equal to the old value `+` the size |
| Points.SubAssignSize3 | src/core/geometry/point.rs:754-760 | `-= size` leaves the point equal to the old value `-` the size |
| Points.IndexMut2 | src/core/geometry/point.rs:474-482 | writing through `index_mut` sets the chosen coordinate and leaves the other unchanged |
| Points.IndexMut3 | src/core/geometry/point.rs:497-506 | writing through `index_mut` sets the chosen coordinate and leaves the others unchanged |
| Sizes.IsEmptyIff2 | src/core/geometry/size.rs:338-346 | `is_empty` holds iff some component is `<= 0` |
| Sizes.IsEmptyIff3 | src/core/geometry/size.rs:436-444 | `is_empty` holds iff some component is `<= 0` |
| Sizes.ContainsIff2 | src/core/geometry/size.rs:332-336 | `contains(other)` holds iff `other <= self` componentwise; every size contains itself |
| Sizes.ContainsIff3 | src/core/geometry/size.rs:430-434 | `contains(other)` holds iff `other <= self` componentwise; every size contains itself |
| Sizes.ClampBounds2 | src/core/geometry/size.rs:326-330 | `clamp(lo, hi)`, which is `min(hi).max(lo)`, is always at least `lo`; it is at most `hi` when `lo <= hi` and leaves a size already inside unchanged; on an axis where `lo > hi`, `lo` wins |
| Sizes.ClampBounds3 | src/core/geometry/size.rs:424-428 | `clamp(lo, hi)`, which is `min(hi).max(lo)`, is always at least `lo`; it is at most `hi` when `lo <= hi` and leaves a size already inside unchanged; on an axis where `lo > hi`, `lo` wins |
| Sizes.MinMaxBounds2 | src/core/geometry/size.rs:314-325 | both operands contain `min`, and `max` contains both operands |
| Sizes.MinMaxBounds3 | src/core/geometry/size.rs:404-423 | both operands contain `min`, and `max` contains both operands |
| Sizes.AreaLaws | src/core/geometry/size.rs:168-175 | `area = x * y` is positive for a nonempty size, scales by `k^2` and is 0 for the zero size |
| Sizes.VolumeLaws | src/core/geometry/size.rs:266-273 | `volume = x * y * z` is positive for a nonempty size, scales by `k^3` and is the area of the xy face times z |
| Sizes.LerpEndpoints2 | src/core/geometry/size.rs:177-185 | `lerp` returns `self` at 0 and `other` at 1 |
| Sizes.LerpEndpoints3 | src/core/geometry/size.rs:275-283 | `lerp` returns `self` at 0 and `other` at 1 |
| Sizes.VectorRoundTrip2 | src/core/geometry/size.rs:156-160 | size to vector to size is the identity and so is vector to size to vector; `from_lengths` stores the lengths' values |
| Sizes.VectorRoundTrip3 | src/core/geometry/size.rs:254-258 | size to vector to size is the identity and so is vector to size to vector; `from_lengths` stores the lengths' values |
| Sizes.Compare2 | src/core/geometry/size.rs:348-401 | `cmp_ne` is the negation of `cmp_eq`; `gt`/`ge` are `lt`/`le` with the operands swapped; `cmp_eq(...).all()` holds iff the sizes are equal |
| Sizes.Compare3 | src/core/geometry/size.rs:446-505 | `cmp_ne` is the negation of `cmp_eq`; `gt`/`ge` are `lt`/`le` with the operands swapped; `cmp_eq(...).all()` holds iff the sizes are equal |
| Sizes.Arithmetic2 | src/core/geometry/size.rs:507-660 | `-` undoes `+`, negation is an involution, and dividing by a nonzero scalar undoes multiplying by it |
| Sizes.Arithmetic3 | src/core/geometry/size.rs:516-695 | `-` undoes `+`, negation is an involution, and dividing by a nonzero scalar undoes multiplying by it |
| Sizes.AddAssign2 | src/core/geometry/size.rs:534-540 | `+=` leaves the size equal to the old value `+` rhs |
| Sizes.SubAssign2 | src/core/geometry/size.rs:567-573 | `-=` leaves the size equal to the old value `-` rhs |
| Sizes.MulAssign2 | src/core/geometry/size.rs:636-642 | `*=` leaves the size equal to the old value `*` rhs |
| Sizes.DivAssign2 | src/core/geometry/size.rs:653-659 | `/=` leaves the size equal to the old value `/` rhs |
| Sizes.AddAssign3 | src/core/geometry/size.rs:584-591 | `+=` leaves the size equal to the old value `+` rhs |
| Sizes.SubAssign3 | src/core/geometry/size.rs:618-625 | `-=` leaves the size equal to the old value `-` rhs |
| Sizes.MulAssign3 | src/core/geometry/size.rs:670-677 | `*=` leaves the size equal to the old value `*` rhs |
| Sizes.DivAssign3 | src/core/geometry/size.rs:688-695 | `/=` leaves the size equal to the old value `/` rhs |
| Sizes.IndexMut2 | src/core/geometry/size.rs:713-721 | writing through `index_mut` sets the chosen component and leaves the other unchanged |
| Sizes.IndexMut3 | src/core/geometry/size.rs:736-745 | writing through `index_mut` sets the chosen component and leaves the others unchanged |
| Sizes.Sum2 | src/core/geometry/size.rs:542-556 | the `Sum` loop returns the left fold of `+` from zero |
| Sizes.Sum3 | src/core/geometry/size.rs:593-607 | the `Sum` loop returns the left fold of `+` from zero |
| Sizes.Total2ToVector | src/core/geometry/size.rs:542-556 | summing sizes and then converting to a vector gives the sum of the converted vectors |
| Sizes.Total3ToVector | src/core/geometry/size.rs:593-607 | summing sizes and then converting to a vector gives the sum of the converted vectors |
| Units.LengthNewGet | src/core/units.rs:166-176 | `Length::new(v).get() == v` and `new(l.get()) == l` |
| Units.LengthLerpEndpoints | src/core/units.rs:177-185 | `Length::lerp` returns `self` at 0 and `other` at 1 |
| Units.LengthMinMax | src/core/units.rs:186-201 | `Length::min`/`max` are the tie-to-first `min`/`max` on the values, below and above both operands |
| Units.LengthArithmetic | src/core/units.rs:219-299 | `(a + b) - b == a` and `(a - b) + b == a`; negation is an involution and `a + (-a)` is zero; dividing by a nonzero scalar undoes multiplying by it; 1 and zero are neutral |
| Units.AngleRadians | src/core/units.rs:334-348 | `from_radians(r).radians() == r`; negating an angle negates its radians; angles add by their radians, and `-` undoes `+` |
| Units.AddAssign | src/core/units.rs:237-241 | `+=` leaves the length equal to the old value `+` rhs |
| Units.SubAssign | src/core/units.rs:268-273 | `-=` leaves the length equal to the old value `-` rhs |
| Units.MulAssign | src/core/units.rs:284-289 | `*=` leaves the length equal to the old value `*` the scalar |
| Units.DivAssign | src/core/units.rs:300-305 | `/=` leaves the length equal to the old value `/` the scalar |
| Units.Sum | src/core/units.rs:243-257 | the `Sum` loop returns the left fold of `+` from zero |
| Units.TotalLengthAppend | src/core/units.rs:243-257 | the sum of an empty sequence is zero, and the sum of a concatenation is the sum of the two sums |
| Homogen.ToPoint3Law | src/core/geometry/transform/homogen.rs:63-78 | conversion to `Point3` succeeds iff `w > 0`, and then each coordinate times `w` gives back x, y and z |
| Homogen.ToPoint2Law | src/core/geometry/transform/homogen.rs:46-61 | conversion to `Point2` succeeds iff `w > 0`, and then each coordinate times `w` gives back x and y; z is dropped |
| Homogen.PointRoundTrip | src/core/geometry/transform/homogen.rs:94-106 | embedding a point (w = 1, and z = 0 in 2D) and converting back returns the point; a 3D point converted to 2D keeps x, y |
| Homogen.VectorsAtInfinity | src/core/geometry/transform/homogen.rs:80-92 | embedded vectors have w = 0, so conversion to `Point2` or `Point3` always fails |
| Homogen.ScaleInvariance | src/core/geometry/transform/homogen.rs:63-78 | multiplying all four coordinates by a positive factor does not change the `Point3` conversion |
| Rays.ConstructorsStore | src/core/geometry/ray.rs:55-68 | `with_data` stores the given origin, direction and data, and `new` attaches the unit data |
| Rays.NormalizeKeepsRest | src/core/geometry/ray.rs:72-80 | `normalize` replaces the direction and keeps origin and data |
| Rays.AtLaws | src/core/geometry/ray.rs:84-91 | `at(0)` is the origin; `at(t) - origin == dir * t`; `at(t) - at(s) == dir * (t - s)`; `at(t + s) == at(t) + dir * s` |
| Translations.Constructors2 | src/core/geometry/transform/translation.rs:82-133 | `new`/`splat` store the offsets given; converting to and from a vector round-trips both ways |
| Translations.Constructors3 | src/core/geometry/transform/translation.rs:94-133 | `new`/`splat` store the offsets given; converting to and from a vector round-trips both ways |
| Translations.IdentityLaws2 | src/core/geometry/transform/translation.rs:141-150 | `is_identity` holds iff the translation is the zero `identity()`, and the identity leaves points unchanged |
| Translations.IdentityLaws3 | src/core/geometry/transform/translation.rs:164-173 | `is_identity` holds iff the translation is the zero `identity()`, and the identity leaves points unchanged |
| Translations.InverseLaws2 | src/core/geometry/transform/translation.rs:152-155 | the negated offset undoes the translation on points in both orders; the double inverse is the original; `t + t.inverse()` is the identity both ways round |
| Translations.InverseLaws3 | src/core/geometry/transform/translation.rs:175-178 | the negated offset undoes the translation on points in both orders; the double inverse is the original; `t + t.inverse()` is the identity both ways round |
| Translations.AddComposes2 | src/core/geometry/transform/translation.rs:285-309 | `(a + b)` applies `a` then `b`, to points and to boxes; `(a + b) - b == a`; `+` commutes |
| Translations.AddComposes3 | src/core/geometry/transform/translation.rs:319-344 | `(a + b)` applies `a` then `b`, to points and to boxes; `(a + b) - b == a`; `+` commutes |
| Translations.RigidLaws2 | src/core/geometry/transform/translation.rs:181-224 | a point moves by the offset; vectors, normals and sizes come back unchanged; differences of points are preserved |
| Translations.RigidLaws3 | src/core/geometry/transform/translation.rs:226-269 | a point moves by the offset; vectors, normals and sizes come back unchanged; differences of points are preserved |
| Translations.BoxLaws2 | src/core/geometry/transform/translation.rs:208-215 | a box is `translate`d by the offset, so size and emptiness are kept, and a point is contained iff its image is contained in the image |
| Translations.BoxLaws3 | src/core/geometry/transform/translation.rs:253-260 | a box is `translate`d by the offset, so size and emptiness are kept, and a point is contained iff its image is contained in the image |
| Translations.AddAssign2 | src/core/geometry/transform/translation.rs:294-300 | `+=` updates both fields in place to exactly the `+` result |
| Translations.SubAssign2 | src/core/geometry/transform/translation.rs:311-317 | `-=` updates both fields in place to exactly the `-` result |
| Translations.AddAssign3 | src/core/geometry/transform/translation.rs:328-335 | `+=` updates the three fields in place to exactly the `+` result |
| Translations.SubAssign3 | src/core/geometry/transform/translation.rs:346-353 | `-=` updates the three fields in place to exactly the `-` result |
| Scales.NewGet | src/core/geometry/transform/scale.rs:59-71 | `Scale::new(f).get() == f` and `new(s.get()) == s` |
| Scales.IdentityLaws | src/core/geometry/transform/scale.rs:79-87 | `is_identity` holds iff the factor is 1; the identity leaves points, vectors, normals, lengths and sizes unchanged and is its own inverse |
| Scales.InverseInvolution | src/core/geometry/transform/scale.rs:89-92 | for a nonzero factor, the reciprocal is nonzero, its inverse is the original, and a scale times its inverse is the identity both ways round |
| Scales.InversePoints | src/core/geometry/transform/scale.rs:104-120 | for a nonzero factor, the inverse undoes the scale on 2D and 3D points |
| Scales.InverseVectors | src/core/geometry/transform/scale.rs:131-156 | for a nonzero factor, the inverse undoes the scale on vectors and on normals |
| Scales.InverseMeasures | src/core/geometry/transform/scale.rs:95-102 | for a nonzero factor, the inverse undoes the scale on lengths and on sizes |
| Scales.MulComposesPoint | src/core/geometry/transform/scale.rs:219-226 | `(a * b)` applies `a` then `b` to points |
| Scales.MulComposesBox | src/core/geometry/transform/scale.rs:219-226 | `(a * b)` applies `a` then `b` to boxes |
| Scales.MulComposesMeasures | src/core/geometry/transform/scale.rs:219-226 | `(a * b)` applies `a` then `b` to vectors, lengths and sizes |
| Scales.Componentwise | src/core/geometry/transform/scale.rs:104-192 | points, vectors and sizes have every component multiplied by the factor, and normals divided by it |
| Scales.NormalDotPreserved | src/core/geometry/transform/scale.rs:131-156 | for a nonzero factor, the dot product of a scaled normal with a scaled vector equals that of the originals |
| Scales.BoxLaws | src/core/geometry/transform/scale.rs:158-174 | boxes map min and max separately, so a positive factor keeps emptiness and a negative factor makes a nonempty box's min exceed its max |
| Scales.AddSub | src/core/geometry/transform/scale.rs:194-217 | `(a + b) - b == a`, and the identity is neutral for `*` on both sides |
| Scales.LengthRatioLaw | src/core/units.rs:307-314 | `Length a / Length b` is the scale `a / b`, and for a nonzero `b` that scale maps `b` to `a` |
| Boxes.IsEmptyIff2 | src/core/geometry/box.rs:145-152 | `is_empty` holds iff some axis has `max <= min`, iff the size is empty, and `empty()` is empty |
| Boxes.IsEmptyIff3 | src/core/geometry/box.rs:380-387 | `is_empty` holds iff some axis has `max <= min`, iff the size is empty, and `empty()` is empty |
| Boxes.ContainsHalfOpen2 | src/core/geometry/box.rs:166-173 | `contains` is the half-open `min <= p < max` on every axis; an empty box contains no point; a nonempty box contains its min and not its max |
| Boxes.ContainsHalfOpen3 | src/core/geometry/box.rs:403-415 | `contains` is the half-open `min <= p < max` on every axis; an empty box contains no point; a nonempty box contains its min and not its max |
| Boxes.ContainsBoxLaws2 | src/core/geometry/box.rs:175-186 | every box contains an empty box and itself, and a contained box's points are contained |
| Boxes.ContainsBoxLaws3 | src/core/geometry/box.rs:417-430 | every box contains an empty box and itself, and a contained box's points are contained |
| Boxes.UnionLaws2 | src/core/geometry/box.rs:260-276 | union with an empty operand returns the other operand; the union contains both operands and every point of either |
| Boxes.UnionLaws3 | src/core/geometry/box.rs:513-529 | union with an empty operand returns the other operand; the union contains both operands and every point of either |
| Boxes.IntersectionLaws2 | src/core/geometry/box.rs:278-298 | `intersection` is none iff `intersection_unchecked` is empty, and otherwise returns it; the unchecked box contains exactly the points of both; `intersects` and `intersection` are symmetric |
| Boxes.IntersectionLaws3 | src/core/geometry/box.rs:531-551 | `intersection` is none iff `intersection_unchecked` is empty, and otherwise returns it; the unchecked box contains exactly the points of both; `intersects` and `intersection` are symmetric |
| Boxes.IntersectsAgreesWithIntersection2 | src/core/geometry/box.rs:154-164 | for nonempty boxes `intersects` holds iff `intersection` is some; a nonempty intersection always implies `intersects` |
| Boxes.IntersectsAgreesWithIntersection3 | src/core/geometry/box.rs:389-401 | for nonempty boxes `intersects` holds iff `intersection` is some; a nonempty intersection always implies `intersects` |
| Boxes.DegenerateBoxIntersects | src/core/geometry/box.rs:154-164 | a zero-width box can still `intersect` another box while their `intersection` is none |
| Boxes.TranslateLaws2 | src/core/geometry/box.rs:196-205 | `translate` keeps the size and emptiness, and moves exactly the contained points along |
| Boxes.TranslateLaws3 | src/core/geometry/box.rs:440-449 | `translate` keeps the size and emptiness, and moves exactly the contained points along |
| Boxes.InflateLaws2 | src/core/geometry/box.rs:207-215 | inflating by non-negative amounts gives a box that contains the original and is `2d` larger on each axis |
| Boxes.InflateLaws3 | src/core/geometry/box.rs:451-459 | inflating by non-negative amounts gives a box that contains the original and is `2d` larger on each axis |
| Boxes.Measures2 | src/core/geometry/box.rs:217-258 | `range`, `length` and `size` agree on each axis; `area` is the size's area and is positive for a nonempty box |
| Boxes.Measures3 | src/core/geometry/box.rs:461-512 | `range`, `length` and `size` agree on each axis; `volume` is the size's volume; `area(a, b)` is the product of two extents; `volume` is the xy area times the z extent and is positive for a nonempty box |
| Boxes.CenterLaws2 | src/core/geometry/box.rs:223-231 | `center` is the midpoint `lerp(0.5)` of min and max, and a nonempty box contains it |
| Boxes.CenterLaws3 | src/core/geometry/box.rs:467-475 | `center` is the midpoint `lerp(0.5)` of min and max, and a nonempty box contains it |
| Boxes.FromSizeLaws | src/core/geometry/box.rs:107-143 | a box built from a size starts at the origin, has that size, and is empty iff the size is |
| Boxes.LerpEndpoints2 | src/core/geometry/box.rs:344-352 | `lerp` returns `self` at 0 and `other` at 1 |
| Boxes.LerpEndpoints3 | src/core/geometry/box.rs:597-605 | `lerp` returns `self` at 0 and `other` at 1 |
| Boxes.RoundInOut | src/core/geometry/box.rs:606-624 | the original box contains `round_in`, and `round_out` contains the original, as the doc comments say |
| Boxes.ScaleLaws2 | src/core/geometry/box.rs:57-78 | dividing by a nonzero factor undoes multiplying by it, and a positive factor keeps emptiness |
| Boxes.ScaleLaws3 | src/core/geometry/box.rs:57-78 | dividing by a nonzero factor undoes multiplying by it, and a positive factor keeps emptiness |
| Boxes.MulAssign2 | src/core/geometry/box.rs:65-70 | `*=` updates min and max in place to exactly the `*` result |
| Boxes.DivAssign2 | src/core/geometry/box.rs:80-85 | `/=` updates min and max in place to exactly the `/` result |
| Boxes.MulAssign3 | src/core/geometry/box.rs:65-70 | `*=` updates min and max in place to exactly the `*` result |
| Boxes.DivAssign3 | src/core/geometry/box.rs:80-85 | `/=` updates min and max in place to exactly the `/` result |
| Boxes.FromPoints2 | src/core/geometry/box.rs:300-318 | the running min/max loop returns the bounds of the points (`empty()` for none) |
| Boxes.FromPoints3 | src/core/geometry/box.rs:553-571 | the running min/max loop returns the bounds of the points (`empty()` for none) |
| Boxes.MinMaxOfBound2 | src/core/geometry/box.rs:306-317 | the running min is below and the running max above every point |
| Boxes.MinMaxOfBound3 | src/core/geometry/box.rs:559-570 | the running min is below and the running max above every point |
| Boxes.MinMaxOfAttained2 | src/core/geometry/box.rs:306-317 | on every axis, the running min and the running max are each attained by some input point |
| Boxes.MinMaxOfAttained3 | src/core/geometry/box.rs:559-570 | on every axis, the running min and the running max are each attained by some input point |
| Boxes.BoundsLaws2 | src/core/geometry/box.rs:300-318 | no points give `empty()`; otherwise every point lies between min and max, and each bound is attained on every axis |
| Boxes.BoundsLaws3 | src/core/geometry/box.rs:553-571 | no points give `empty()`; otherwise every point lies between min and max, and each bound is attained on every axis |
| Boxes.FirstErrorAt | src/core/geometry/box.rs:320-340 | the first error is the error of the earliest `Err` item |
| Boxes.FirstErrorNone | src/core/geometry/box.rs:320-340 | there is no error iff every item is `Ok` |
| Boxes.OksAllOk | src/core/geometry/box.rs:320-340 | when every item is `Ok`, unwrapping keeps length and values |
| Boxes.TryBoundsLaws2 | src/core/geometry/box.rs:320-340 | with no errors, `try_from_points` returns `Ok` of `from_points` on the unwrapped points |
| Boxes.TryBoundsError2 | src/core/geometry/box.rs:320-340 | `try_from_points` returns the first `Err` it meets |
| Boxes.TryBoundsLaws3 | src/core/geometry/box.rs:573-593 | with no errors, `try_from_points` returns `Ok` of `from_points` on the unwrapped points |
| Boxes.TryBoundsError3 | src/core/geometry/box.rs:573-593 | `try_from_points` returns the first `Err` it meets |
| Boxes.TryFromPoints2 | src/core/geometry/box.rs:320-340 | the loop returns the first error, or the bounds of all the points |
| Boxes.TryFromPoints3 | src/core/geometry/box.rs:573-593 | the loop returns the first error, or the bounds of all the points |
| Rotations.Rotation2Laws | src/core/geometry/transform/rotation.rs:255-275 | the identity is angle zero and `is_identity` holds exactly for it; the inverse negates the angle, is an involution, and adds to the angle to give zero; sizes are returned unchanged |
| Rotations.IdentityLaws | src/core/geometry/transform/rotation.rs:283-292 | `is_identity` holds exactly for the components (1, 0, 0, 0), which `identity()` returns and which is a unit quaternion |
| Rotations.IdentityNeutral | src/core/geometry/transform/rotation.rs:168-182 | the identity is a left and right neutral element of the Hamilton product behind `then` |
| Rotations.InverseLaws | src/core/geometry/transform/rotation.rs:294-297 | the conjugate inverse is an involution, keeps the norm, keeps the scalar part and negates the vector part |
| Rotations.ConjugateProduct | src/core/geometry/transform/rotation.rs:168-182 | a quaternion times its conjugate, in either order, has scalar part `norm_squared` and zero vector part |
| Rotations.ThenInverse | src/core/geometry/transform/rotation.rs:168-182 | for a unit quaternion, `q.then(q.inverse())` and `q.inverse().then(q)` are the identity (and both operands pass the `is_normalized` debug check) |
| Rotations.InverseOfProduct | src/core/geometry/transform/rotation.rs:168-182 | the conjugate of a product is the product of the conjugates in reverse order |
| Rotations.NormMultiplicative | src/core/geometry/transform/rotation.rs:146-149 | `norm_squared` of a product is the product of the `norm_squared`s |
| Rotations.UnitsClosed | src/core/geometry/transform/rotation.rs:159-182 | composing two unit quaternions with `then` gives a unit quaternion, which passes `is_normalized` again |
| Rotations.ToleranceNotClosed | src/core/geometry/transform/rotation.rs:159-173 | a quaternion can pass `is_normalized` while its composition with itself under `then` fails it, so the debug check in `then` does not carry over to the result |
| Rotations.ProductAssociative | src/core/geometry/transform/rotation.rs:176-181 | the Hamilton product is associative |
| Rotations.ThenAssociative | src/core/geometry/transform/rotation.rs:168-182 | `(p.then(q)).then(r) == p.then(q.then(r))` for unit operands, with every intermediate passing the debug check |
| Rotations.SandwichFormula | src/core/geometry/transform/rotation.rs:349-362 | the point transform's expanded formula equals the algebraic rotation `q v q*` up to the term `v (norm_squared - 1)` |
| Rotations.SandwichUnit | src/core/geometry/transform/rotation.rs:349-362 | for a unit quaternion, the point transform is exactly `q v q*` |
| Rotations.IdentityMovesNothing | src/core/geometry/transform/rotation.rs:283-287 | the identity leaves vectors and points unchanged |
| Rotations.ThenComposesVectors | src/core/geometry/transform/rotation.rs:168-182 | for unit quaternions, `p.then(q)` rotates vectors by `p` and then by `q` |
| Rotations.ThenComposesPoints | src/core/geometry/transform/rotation.rs:168-182 | for unit quaternions, `p.then(q)` rotates points by `p` and then by `q` |
| Rotations.LengthPreserved | src/core/geometry/transform/rotation.rs:349-371 | a unit quaternion keeps the squared length of vectors and the squared distance of points from the origin |
| Rotations.SizesUnchanged | src/core/geometry/transform/rotation.rs:340-347 | `Rotation2` and `Rotation3` return sizes unchanged |
| Rotations.BoxNotRefitted | src/core/geometry/transform/rotation.rs:382-392 | boxes map only min and max, not refitted: the half turn about z sends every nonempty box to an empty one |
| Rotations.HalfTurn | src/core/geometry/transform/rotation.rs:349-362 | `(0, 0, 0, 1)` rotates points by a half turn about the z axis |
| Rotations.ApproxEqEpsLaws | src/core/geometry/transform/rotation.rs:422-442 | `approx_eq_eps` is symmetric, never holds for `eps <= 0`, and for `eps > 0` accepts a quaternion and its negation |
| Rotations.ArithmeticLaws | src/core/geometry/transform/rotation.rs:224-253 | the private `add`/`sub`/`mul`: `-` undoes `+`, `+` commutes, 1 is neutral, multiplying by -1 twice is the identity, and `mul` distributes over `add` |
| Rotations.MulDistributes | src/core/geometry/transform/rotation.rs:225-253 | scaling a sum with `mul` equals adding the scaled parts |
| Rotations.AroundAxisAsWrittenZeroAngle | src/core/geometry/transform/rotation.rs:132-137 | as written, the zero angle about any axis gives `(0, 0, 0, 1)`, which is not the identity and turns points off the z axis by half a turn |
| Rotations.AroundAxisZeroAngle | src/core/geometry/transform/rotation.rs:132-137 | with the cosine as the scalar part, the zero angle gives the identity about every axis |
| Rotations.AroundAxisUnit | src/core/geometry/transform/rotation.rs:132-137 | with a unit axis and `sin^2 + cos^2 = 1`, `around_axis` returns a unit quaternion that passes `is_normalized` |
| Rotations.AroundAxisFixesAxis | src/core/geometry/transform/rotation.rs:132-137 | the rotation about an axis leaves the axis fixed |
| Rotations.AroundAxisQuarterTurn | src/core/geometry/transform/rotation.rs:132-137 | a quarter turn about z maps `(1, 0, 0)` to `(0, 1, 0)` |
| Matrices.MatMul3x2Identity | src/core/geometry/transform/transform.rs:855-866 | the affine 3×2 identity is a left and right unit of the row-vector product |
| Matrices.MatMul3x2Assoc | src/core/geometry/transform/transform.rs:855-866 | the 3×2 affine product is associative |
| Matrices.Inverts3x2Compose | src/core/geometry/transform/transform.rs:848-883 | if two matrices are inverted by their partners, the product is inverted by the partners' product in reverse order |
| Matrices.MatMul4Identity | src/core/geometry/transform/transform.rs:928-986 | the 4×4 identity is a left and right unit of the matrix product |
| Matrices.MatMul4Assoc | src/core/geometry/transform/transform.rs:928-986 | the 4×4 product is associative |
| Matrices.Inverts4Compose | src/core/geometry/transform/transform.rs:921-987 | if two 4×4 matrices are inverted by their partners, the product is inverted by the partners' product in reverse order |
| Matrices.TransposeLaws | src/core/geometry/transform/transform.rs:603-616 | transposing twice gives the matrix back, and the identity is its own transpose |
| Matrices.MatInverse4Correct | src/core/geometry/transform/transform.rs:531-599 | `mat_inverse` returns `None` exactly when the determinant is zero, and otherwise a matrix that is a left and right inverse |
| Matrices.InverseRight | src/core/geometry/transform/transform.rs:531-599 | the cofactor matrix scaled by the reciprocal of the determinant, with the entries written out as in the source, is a right inverse |
| Matrices.InverseLeft | src/core/geometry/transform/transform.rs:531-599 | the same scaled cofactor matrix is a left inverse |
| Transforms.TryNew2Correct | src/core/geometry/transform/transform.rs:166-186 | the 2D `try_new` returns `None` exactly when the matrix is singular, and otherwise a transform holding the matrix and a true inverse |
| Transforms.Inverse2Right | src/core/geometry/transform/transform.rs:166-186 | that closed-form inverse is a right inverse of the affine matrix |
| Transforms.Inverse2Left | src/core/geometry/transform/transform.rs:166-186 | that closed-form inverse is a left inverse of the affine matrix |
| Transforms.Builders2Valid | src/core/geometry/transform/transform.rs:66-88 | `identity()` keeps its invariant, `is_identity` holds for it, and the trait's `identity` is the same transform |
| Transforms.Translation2Valid | src/core/geometry/transform/transform.rs:191-199 | a 2D translation stores a matrix and inverse that invert each other |
| Transforms.Scale2Valid | src/core/geometry/transform/transform.rs:220-228 | a 2D scale with non-zero factors stores a matrix and inverse that invert each other |
| Transforms.Rotation2Laws | src/core/geometry/transform/transform.rs:204-215 | the 2D rotation sends the unit x axis to (cos, sin) and the unit y axis to (−sin, cos), and for cos² + sin² = 1 keeps its invariant |
| Transforms.Mul2Composes | src/core/geometry/transform/transform.rs:672-695 | the product `a * b` maps points and vectors first by `a` and then by `b` |
| Transforms.Mul2Laws | src/core/geometry/transform/transform.rs:848-883 | the product of two valid transforms is valid, the product is associative, and the identity is neutral on both sides |
| Transforms.Inverse2Laws | src/core/geometry/transform/transform.rs:642-646 | `inverse` swaps the matrix and its inverse, is an involution, keeps validity and undoes the transform's point map on both sides |
| Transforms.Eq2Laws | src/core/geometry/transform/transform.rs:38-42 | equality compares the forward matrices only, is symmetric, gives the same point and vector maps, and `is_identity` is equality with `identity()` |
| Transforms.Translation2Laws | src/core/geometry/transform/transform.rs:191-199 | a translation adds its vector to points, leaves vectors and normals alone, composes by adding vectors and inverts to the negated vector; `From<Translation2>` maps points as the translation does |
| Transforms.Scale2Laws | src/core/geometry/transform/transform.rs:220-228 | a scale multiplies points and vectors by the factors and divides normals by them; `From<Scale>` maps as the scale does |
| Transforms.Normal2Preserved | src/core/geometry/transform/transform.rs:698-708 | a normal mapped through the inverse transpose keeps its dot product with every mapped direction |
| Transforms.Box2Fits | src/core/geometry/transform/transform.rs:711-724 | the image box contains the images of all four corners and is bounded on each axis by two of them |
| Transforms.ApproxEq2Entries | src/core/geometry/transform/transform.rs:1015-1025 | `approx_eq_eps` holds exactly when every forward-matrix entry is within `eps` of the other's |
| Transforms.TryNew3Correct | src/core/geometry/transform/transform.rs:259-265 | the 3D `try_new` returns `None` exactly when the determinant is zero, and otherwise a transform holding the matrix and a true inverse |
| Transforms.New3Valid | src/core/geometry/transform/transform.rs:250-256 | `new` on an invertible matrix keeps the matrix and the invariant |
| Transforms.Builders3Valid | src/core/geometry/transform/transform.rs:116-139 | the 3D `identity()` keeps its invariant, `is_identity` holds for it, and the trait's `identity` is the same transform |
| Transforms.Translation3Valid | src/core/geometry/transform/transform.rs:270-284 | a 3D translation stores a matrix and inverse that invert each other |
| Transforms.Scale3Valid | src/core/geometry/transform/transform.rs:319-337 | a 3D scale with non-zero factors stores a matrix and inverse that invert each other |
| Transforms.Mul3Laws | src/core/geometry/transform/transform.rs:921-987 | the product of two valid transforms is valid, the product is associative, and the identity is neutral on both sides |
| Transforms.Mul3Homogeneous | src/core/geometry/transform/transform.rs:727-747 | `a * b` maps a point to `a`'s homogeneous image times `b`'s matrix |
| Transforms.Mul3Point | src/core/geometry/transform/transform.rs:727-747 | when `a`'s image of a point has positive weight, `a * b` maps it as `b` after `a` |
| Transforms.Mul3Vector | src/core/geometry/transform/transform.rs:749-767 | `a * b` maps vectors as `b` after `a` when `a` has no projective column or `b` no translation row |
| Transforms.Inverse3Laws | src/core/geometry/transform/transform.rs:665-669 | `inverse` swaps the matrices, is an involution, keeps validity, and undoes the point map wherever the projection succeeds |
| Transforms.Eq3Laws | src/core/geometry/transform/transform.rs:38-42 | equality compares the forward matrices only, is symmetric, gives the same maps, and `is_identity` is equality with `identity()` |
| Transforms.ApproxEq3Entries | src/core/geometry/transform/transform.rs:1027-1036 | `approx_eq_eps` holds exactly when each of the sixteen forward-matrix entries is within `eps` |
| Transforms.ApproxEq3Laws | src/core/geometry/transform/transform.rs:1027-1036 | approximate equality is symmetric, and a transform equals itself exactly when `eps` is positive |
| Transforms.Translation3Laws | src/core/geometry/transform/transform.rs:270-284 | a translation adds its vector to points, leaves vectors and normals alone, composes by adding vectors and inverts to the negated vector; `From<Translation3>` maps points as the translation does |
| Transforms.TranslationExample3 | src/core/geometry/transform/transform.rs:1128-1139 | the values of `test_translation`: the identity is neutral, (1, 1, 1) goes to (2, 3, 4), vectors and normals are unchanged, and the square adds the vector twice |
| Transforms.AffineImage3 | src/core/geometry/transform/transform.rs:618-623 | for an affine matrix the weight is 1 and `transform_point3` returns the first three coordinates |
| Transforms.Scale3Laws | src/core/geometry/transform/transform.rs:319-337 | a 3D scale multiplies points and vectors by the factors and divides normals by them |
| Transforms.FromScale3Point | src/core/geometry/transform/transform.rs:1111-1118 | `From<Scale>` maps points as the scale does |
| Transforms.FromScale3Directions | src/core/geometry/transform/transform.rs:1111-1118 | `From<Scale>` maps vectors and normals as the scale does |
| Transforms.FromRotation3Vector | src/core/geometry/transform/transform.rs:1075-1109 | the matrix built from a quaternion maps vectors and normals as the quaternion's rotation does |
| Transforms.FromRotation3Point | src/core/geometry/transform/transform.rs:1075-1109 | the matrix built from a quaternion has weight 1 and maps points as the quaternion does |
| Transforms.RotationIsQuaternion | src/core/geometry/transform/transform.rs:289-314 | the axis-angle matrix of `rotation` is the matrix built from the quaternion for that axis and half angle |
| Transforms.RotationAgrees | src/core/geometry/transform/transform.rs:289-314 | the 3D `rotation` maps vectors and points as the quaternion rotation about the same axis |
| Transforms.Normal3Preserved | src/core/geometry/transform/transform.rs:770-788 | for an affine valid transform a mapped normal keeps its dot product with every mapped vector |
| Transforms.Box3Laws | src/core/geometry/transform/transform.rs:791-809 | the box transform fails exactly when some corner's image has non-positive weight, and otherwise contains the images of all eight corners |
| Transforms.OrthographicLhValid | src/core/geometry/transform/transform.rs:438-460 | the left-handed orthographic matrix is invertible for a non-degenerate volume and keeps the invariant |
| Transforms.OrthographicLhCorners | src/core/geometry/transform/transform.rs:438-460 | the near bottom-left corner goes to (−1, −1, 0) and the far top-right corner to (1, 1, 1) |
| Transforms.OrthographicRhValid | src/core/geometry/transform/transform.rs:462-486 | the right-handed orthographic matrix is invertible for a non-degenerate volume and keeps the invariant |
| Transforms.OrthographicRhCorners | src/core/geometry/transform/transform.rs:462-486 | with the view along −z, the corner at depth −near goes to (−1, −1, 0) and the one at depth −far to (1, 1, 1) |

## Left out

- Trigonometry and square roots have no exact `real` semantics, so the sine and cosine of the half angle are parameters.
  - `Transform3::rotation`, `Transform3.Rotation` and `Rotations.AroundAxis` take them as parameters.
  - `Transform2::rotation` (`Transform2.Rotation`) takes the cosine and sine of the angle.
  - `around_axis`'s `normalize` of the axis is assumed done by the caller.
- `From<Rotation2>` for `Transform2` is not modelled. It is `rotation(angle)`, which needs the sine and cosine of the angle.
- `perspective_lh/rh` and `look_at_*`/`look_to_*` are not modelled. They need `tan` and `normalize`.
- Several `Rotation3` operations are not modelled because they need trigonometry, a square root or `acos`: `new`, `norm`, `normalize`, `slerp`, `lerp`, `from_euler_angles`, and `Rotation2`'s point, vector and box transforms.
- `Ray::normalize` needs a square root, so the normalized direction is a parameter (`Rays.Ray.Normalize`).
- The following are not modelled because they need a square root or degrees: vector `length`, `normalize`, `try_normalize`, `with_length`, `with_*_length`, `clamp_length`, `robust_normalize`, `angle_between`, `is_finite`, and `Angle::from_degrees`/`degrees`.
- Float-only behaviour is not modelled: the f32/f64 `ApproxEq` epsilons, `fast_atan2`, NaN propagation beyond `min`/`max`, and rounding of float results.
  - `approx_eq_eps` is modelled over `real` with an explicit `eps`.
  - The float `round` is `floor(x + 0.5)` over `real`.
  - `is_normalized` keeps the source's tolerance: `norm_squared` within `0.00001` of 1 (`Rotations.Rotation3.IsNormalized`).
- `Cast`/`ToPrimitive`/`NumCast` conversions, `Debug`/`fmt`, `Hash`, `Clone`/`Copy`/`Default` and `erase_unit` are left out. They are conversion and formatting plumbing, or bookkeeping with no arithmetic.
- The by-reference `Mul` overloads of `transform.rs` (812-846, 885-919) only dereference and forward to the by-value `Mul`, which is modelled.
- The `Transformation` and `Transform` traits are not modelled as traits. Each implementor's `identity`, `is_identity`, `inverse` and `transform` is a member of that implementor.
- Transforms.Mul3Vector: composition on vectors is proved only when `a` has no projective column or `b` has no translation row. Without that, the source's vector transform drops the weight and does not compose.
- Transforms.Normal3Preserved: the dot product of a normal and a vector is proved preserved only for affine transforms (no projective column). With a projective column, the 3×3 block of `mat_inv` need not invert the 3×3 block of `mat`, so the dot product can change.
- Transforms.Mul3Point: composition on points is proved where the first projection succeeds (`w > 0`). Otherwise `transform_point3` returns `Err`.
- Transforms.Rotation2Laws: `Transform2.Rotation` is proved valid only when `cos² + sin² = 1`, which the trigonometric functions guarantee in the source.
- Rotations.UnitsClosed: closure under `then` is proved only for exact unit quaternions (`norm_squared == 1`), not for every quaternion that passes `is_normalized`. The tolerance itself is not closed under `then` (`Rotations.ToleranceNotClosed`).
- Rotations.ThenAssociative: proved only for exact unit operands, for the same reason.
- Rotations.ThenInverse: proved only for an exact unit quaternion, for the same reason.
- Rotations.AroundAxisUnit: the result is proved exactly unit only for an exact unit axis and `sin² + cos² = 1`.
- Transform3 rotations: validity of `Transform3.Rotation` and `Transform3.FromRotation3` (the transpose is the inverse for a unit quaternion) is not proved. The contracts relate their maps to the quaternion rotation instead.

## Findings

| source | as written | input that shows it | evidently intended | confidence | as-written member | corrected member |
|---|---|---|---|---|---|---|
| src/core/geometry/transform/rotation.rs:132-137 | `around_axis` passes `cos` as the last argument of `new_unchecked` (the `k` part) and `axis.x * sin` as the scalar part `a` | a zero angle about any axis gives `(0, 0, 0, 1)`, the half turn about z, which sends `(1, 0, 0)` to `(-1, 0, 0)` | scalar part `cos`, vector part `axis * sin`, as in `Transform3::rotation`, so the zero angle gives the identity | not executed | Rotations.AroundAxisAsWrittenZeroAngle | Rotations.AroundAxisZeroAngle |
