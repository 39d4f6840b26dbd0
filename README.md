# ndvec, modelled in Dafny

`ndvec` is a small Rust library of fixed-size numeric vectors. It has a
general vector `VecND<T, N>` that wraps one array of N components, and
three named-field vectors, `Vec1D` (`x`), `Vec2D` (`x, y`) and `Vec3D`
(`x, y, z`). The `Vector` trait gives each of them `norm_sqr`, `dot`,
`is_finite`, `has_nan` and `DIM`. From `norm_sqr` and subtraction it
derives `norm`, `distance` and `distance_sqr` once. Each vector has
`zero`/`is_zero`, negation, vector `+`/`-`, scalar `*` and `/` (also
scalar-on-the-left `*`), in-place `+=`, `-=`, `*=`, `/=`, `Sum` as a left
fold from zero, and lossless conversions. Vector addition and subtraction
on `VecND` build their result with `arr_zip_map`, which fills an
uninitialised buffer slot by slot.

The model works over exact `real` components:

- `component.dfy`, module `Component`: what a component offers, namely
  `abs`, `sum`, `all`, `any`, the product, and the square-root law used by
  some lemmas.
- `array.dfy`, module `Array`: `[T; N]::map`, zipping, and `arr_zip_map`.
  It is a method over two arrays that fills a buffer of slots, each either
  unwritten or written. The loop keeps the written/unwritten invariant, and
  the buffer is read back only once every slot is written.
- `vector.dfy`, module `Vector`: the trait's default methods. They take a
  vector type's own `norm_sqr`, `norm` and subtraction as function values.
- `general.dfy`, module `General`: `VecND` as a datatype over a sequence,
  where N is its length. Compound assignment is modelled by the class
  `VecNDVar`, whose loops update an `array` in place.
- `fixed.dfy`, modules `Fixed1D`, `Fixed2D`, `Fixed3D`: the three
  named-field vectors. Each has a datatype for values and a class with the
  named fields for compound assignment. Every operation is proved to agree
  with the `VecND` operation through the conversion to `VecND`.
- `scenarios.dfy`, module `Scenarios`: cases from the library's test
  suites, stated and proved over the model.

The floating-point tests `is_nan` and `is_finite` and the square root
cannot be written exactly over `real`. They are parameters of the members
that use them. Lemmas that need the square root require `Component.IsSqrt`:
on non-negative inputs the result is non-negative and squares back to the
input.

## Model

| member | source | states |
|---|---|---|
| Component.Abs | src/fixed.rs:79-82 | `abs` is non-negative and equals the component or its negation |
| Component.All | src/general.rs:54-56 | `all` holds iff the predicate holds of every element |
| Component.Any | src/general.rs:58-60 | `any` holds iff the predicate holds of some element |
| Component.SumNonnegZero | src/general.rs:46-48 | `Component.Sum`, `Iterator::sum` as a left fold of `+` from zero, of non-negative terms is zero iff every term is zero |
| Component.SumOfZeros | src/general.rs:210-215 | a `Component.Sum` of zeros, of any length, is zero |
| Array.MapEach | src/general.rs:81-90 | `[T; N]::map` returns a new array of the same length whose element i is the function applied to element i, at the same index |
| Array.ZipWith | src/array.rs:23-25 | zipping yields as many results as the shorter input, result i combining the two i-th elements |
| Array.AssumeInit | src/array.rs:26-28 | reading the buffer is allowed only once every slot is written, and yields the written values in order |
| Array.ArrZipMap | src/array.rs:16-29 | for inputs of one length N and any three element types: the result has length N, slot i is `map(a[i], b[i])` with no shift or reordering, `map` is called exactly N times (never for N = 0); the loop keeps slots before k written and the rest untouched |
| Vector.NormIsRootOfNormSqr | src/lib.rs:71-73 | with a true square root, the default norm `Vector.Norm` (`sqrt` of a type's `norm_sqr`) is the non-negative root of `norm_sqr` and is zero iff `norm_sqr` is |
| General.IsFinite | src/general.rs:54-56 | `is_finite` iff every component is finite |
| General.HasNan | src/general.rs:58-60 | `has_nan` iff some component is NaN |
| General.Zero | src/general.rs:69-74 | `zero()` has N components, all zero |
| General.IsZero | src/general.rs:76-78 | `is_zero` iff the vector equals `zero()` of its dimension |
| General.Neg | src/general.rs:81-101 | negation keeps the length and negates every component |
| General.Add | src/general.rs:103-121 | addition, built with `Array.ZipWith` (what `Array.ArrZipMap` is proved to compute), is component-wise and keeps the common length |
| General.Sub | src/general.rs:123-126 | subtraction, built with `Array.ZipWith` (what `Array.ArrZipMap` is proved to compute), is component-wise and keeps the common length |
| General.Mul | src/general.rs:143-144 | `v * s` multiplies every component by the same scalar |
| General.Div | src/general.rs:146-147 | `v / s` divides every component by the same scalar |
| General.LeftMul | src/general.rs:149-172 | `s * v` multiplies the scalar by every component |
| General.VecNDVar.constructor | src/general.rs:217-222 | a mutable place holding the given vector |
| General.VecNDVar.AddAssign | src/general.rs:174-188 | `+=` updates the array in place to `old[i] + rhs[i]` for every i, length unchanged |
| General.VecNDVar.SubAssign | src/general.rs:189-190 | `-=` updates the array in place to `old[i] - rhs[i]` for every i, length unchanged |
| General.VecNDVar.MulAssign | src/general.rs:192-199 | `*=` leaves the array equal to the non-assigning `*` of its old value |
| General.VecNDVar.DivAssign | src/general.rs:201-208 | `/=` leaves the array equal to the non-assigning `/` of its old value |
| General.ArrayRoundTrip | src/general.rs:217-229 | conversion `General.FromArray` from an array and `General.ToArray` back is the identity both ways, and `DIM` is the array's length |
| General.NormSqrIsDot | src/general.rs:46-52 | `General.NormSqr(v)`, the `Component.Sum` of the squared components, is `General.Dot(v, v)`, the sum of the componentwise products |
| General.DotSymmetric | src/general.rs:50-52 | `dot` is symmetric |
| General.NormSqrZeroIff | src/general.rs:46-48 | `norm_sqr` is non-negative and zero exactly when `is_zero` holds |
| General.DistanceSqrSymmetric | src/lib.rs:83-85 | `General.DistanceSqr`, the default `Vector.DistanceSqr` (`norm_sqr` of the difference), is symmetric |
| General.DistanceSqrZeroIff | src/lib.rs:83-85 | `distance_sqr` is non-negative, and zero exactly between equal vectors |
| General.NormProperties | src/lib.rs:71-73 | for `General.Norm`, the default `Vector.Norm`: the norm of zero is zero; every norm is non-negative and squares to `norm_sqr` |
| General.DistanceProperties | src/lib.rs:77-79 | `General.Distance`, the default `Vector.Distance` (norm of the difference), is symmetric, non-negative, and zero exactly between equal vectors |
| General.FiniteAndNanNotComplements | src/general.rs:54-60 | an infinite, non-NaN component makes a vector neither finite nor NaN-carrying |
| General.AddCommutes | src/general.rs:103-121 | addition commutes |
| General.AddAssociates | src/general.rs:103-121 | addition associates, for any dimensions (with unequal ones every side truncates to the shortest) |
| General.SubIsAddNeg | src/general.rs:81-126 | `a - b == a + (-b)` |
| General.ZeroLaws | src/general.rs:69-126 | `zero()` is the identity of `+` on both sides and `a - a` is `zero()` |
| General.ScaleLaws | src/general.rs:128-172 | `(a*s)*t == a*(s*t)`, `a*1 == a`, `a*0 == zero()`, `s*a == a*s` and `a/s == a*(1/s)` |
| General.SumByColumns | src/general.rs:210-215 | `General.Sum`, the fold of `+` from `zero()`: the sum of N-dimensional vectors is N-dimensional with component i the left-fold sum of the components i; the empty sum is `zero()` |
| General.SumOfZeroVectors | src/general.rs:210-215 | any number of zero vectors sum to the zero vector |
| General.DimensionPreserved | src/general.rs:44 | `DIM` is N: `Dim(zero(n)) == n`, and negation, `* s`, `s *`, `/ s`, `+`/`-` on one dimension and `Sum` of n-dimensional vectors all keep the dimension |
| Fixed1D.Vec1DVar.constructor | src/fixed.rs:36-43 | a mutable place holding the given `Vec1D` |
| Fixed1D.Vec1DVar.AddAssign | src/fixed.rs:248-249 | `+=` sets each of the fields x to its old value plus the matching field of `rhs`, i.e. to `old + rhs` |
| Fixed1D.Vec1DVar.SubAssign | src/fixed.rs:250-251 | `-=` sets each of the fields x to its old value minus the matching field of `rhs`, i.e. to `old - rhs` |
| Fixed1D.Vec1DVar.MulAssign | src/fixed.rs:253-258 | `*=` multiplies each of the fields x by the scalar, giving the non-assigning `*` of the old value |
| Fixed1D.Vec1DVar.DivAssign | src/fixed.rs:260-265 | `/=` divides each of the fields x by the scalar, giving the non-assigning `/` of the old value |
| Fixed1D.ConversionsRoundTrip | src/fixed.rs:274-314 | `Fixed1D.FromArray`/`ToArray`, `FromTuple`/`ToTuple` and `FromND`/`ToND` are mutually inverse and keep field order; the `VecND` image has dimension `Fixed1D.DIM` |
| Fixed1D.QueriesAgree | src/fixed.rs:51-77 | `Fixed1D.NormSqr`, `Dot`, `IsFinite` and `HasNan`, written per field, equal the general vector's folds over the same components |
| Fixed1D.ZeroAgrees | src/fixed.rs:186-198 | `Fixed1D.Zero` is the general zero of dimension `DIM`; `Fixed1D.IsZero` holds exactly of it, as for the general vector |
| Fixed1D.ArithmeticAgrees | src/fixed.rs:200-246 | `Fixed1D.Neg`, `Add`, `Sub`, `Mul`, `LeftMul` and `Div` act on the fields as the general operators act on the same array |
| Fixed1D.AlgebraLaws | src/fixed.rs:200-246 | the general vector's laws hold for `Fixed1D`: `+` commutes and associates, `a - b == a + (-b)`, zero is a two-sided identity with `a - a == zero`, and the five scaling laws (proved for `*` and `/` by transfer through `ToND`) |
| Fixed1D.SumAgrees | src/fixed.rs:267-272 | `Fixed1D.Sum`, the fold of `+` from `zero()` agrees with the general vector's sum of the converted vectors |
| Fixed1D.NormAgrees | src/fixed.rs:79-82 | with a true square root, the overriding `abs` norm `Fixed1D.Norm` equals the default `sqrt(norm_sqr)` and the general vector's norm |
| Fixed1D.DistanceIsAbsDifference | src/lib.rs:77-79 | `Fixed1D.Distance` (the default `Vector.Distance` over the `abs` norm) is `abs(a.x - b.x)`, with no square root involved |
| Fixed1D.DistanceAgrees | src/lib.rs:77-79 | with a true square root, `Fixed1D.Distance` equals the general vector's distance (and is `abs(a.x - b.x)`) |
| Fixed1D.DistanceSqrAgrees | src/lib.rs:83-85 | `Fixed1D.DistanceSqr`, the default `Vector.DistanceSqr`, equals the general vector's distance_sqr |
| Fixed1D.MetricProperties | src/lib.rs:83-85 | `norm_sqr` is `dot` with itself, non-negative and zero only at `zero()`; `distance_sqr` is symmetric, non-negative and zero only between equal vectors |
| Fixed2D.Vec2DVar.constructor | src/fixed.rs:36-43 | a mutable place holding the given `Vec2D` |
| Fixed2D.Vec2DVar.AddAssign | src/fixed.rs:248-249 | `+=` sets each of the fields x, y to its old value plus the matching field of `rhs`, i.e. to `old + rhs` |
| Fixed2D.Vec2DVar.SubAssign | src/fixed.rs:250-251 | `-=` sets each of the fields x, y to its old value minus the matching field of `rhs`, i.e. to `old - rhs` |
| Fixed2D.Vec2DVar.MulAssign | src/fixed.rs:253-258 | `*=` multiplies each of the fields x, y by the scalar, giving the non-assigning `*` of the old value |
| Fixed2D.Vec2DVar.DivAssign | src/fixed.rs:260-265 | `/=` divides each of the fields x, y by the scalar, giving the non-assigning `/` of the old value |
| Fixed2D.ConversionsRoundTrip | src/fixed.rs:274-314 | `Fixed2D.FromArray`/`ToArray`, `FromTuple`/`ToTuple` and `FromND`/`ToND` are mutually inverse and keep field order; the `VecND` image has dimension `Fixed2D.DIM` |
| Fixed2D.QueriesAgree | src/fixed.rs:96-114 | `Fixed2D.NormSqr`, `Dot`, `IsFinite` and `HasNan`, written per field, equal the general vector's folds over the same components |
| Fixed2D.ZeroAgrees | src/fixed.rs:186-198 | `Fixed2D.Zero` is the general zero of dimension `DIM`; `Fixed2D.IsZero` holds exactly of it, as for the general vector |
| Fixed2D.ArithmeticAgrees | src/fixed.rs:200-246 | `Fixed2D.Neg`, `Add`, `Sub`, `Mul`, `LeftMul` and `Div` act on the fields as the general operators act on the same array |
| Fixed2D.AlgebraLaws | src/fixed.rs:200-246 | the general vector's laws hold for `Fixed2D`: `+` commutes and associates, `a - b == a + (-b)`, zero is a two-sided identity with `a - a == zero`, and the five scaling laws (proved for `*` and `/` by transfer through `ToND`) |
| Fixed2D.SumAgrees | src/fixed.rs:267-272 | `Fixed2D.Sum`, the fold of `+` from `zero()` agrees with the general vector's sum of the converted vectors |
| Fixed2D.NormAgrees | src/lib.rs:71-73 | `Fixed2D.Norm`, the default `Vector.Norm`, equals the general vector's norm |
| Fixed2D.DistanceAgrees | src/lib.rs:77-79 | `Fixed2D.Distance`, the default `Vector.Distance`, equals the general vector's distance |
| Fixed2D.DistanceSqrAgrees | src/lib.rs:83-85 | `Fixed2D.DistanceSqr`, the default `Vector.DistanceSqr`, equals the general vector's distance_sqr |
| Fixed2D.MetricProperties | src/lib.rs:83-85 | `norm_sqr` is `dot` with itself, non-negative and zero only at `zero()`; `distance_sqr` is symmetric, non-negative and zero only between equal vectors |
| Fixed3D.Vec3DVar.constructor | src/fixed.rs:36-43 | a mutable place holding the given `Vec3D` |
| Fixed3D.Vec3DVar.AddAssign | src/fixed.rs:248-249 | `+=` sets each of the fields x, y, z to its old value plus the matching field of `rhs`, i.e. to `old + rhs` |
| Fixed3D.Vec3DVar.SubAssign | src/fixed.rs:250-251 | `-=` sets each of the fields x, y, z to its old value minus the matching field of `rhs`, i.e. to `old - rhs` |
| Fixed3D.Vec3DVar.MulAssign | src/fixed.rs:253-258 | `*=` multiplies each of the fields x, y, z by the scalar, giving the non-assigning `*` of the old value |
| Fixed3D.Vec3DVar.DivAssign | src/fixed.rs:260-265 | `/=` divides each of the fields x, y, z by the scalar, giving the non-assigning `/` of the old value |
| Fixed3D.ConversionsRoundTrip | src/fixed.rs:274-314 | `Fixed3D.FromArray`/`ToArray`, `FromTuple`/`ToTuple` and `FromND`/`ToND` are mutually inverse and keep field order; the `VecND` image has dimension `Fixed3D.DIM` |
| Fixed3D.QueriesAgree | src/fixed.rs:96-114 | `Fixed3D.NormSqr`, `Dot`, `IsFinite` and `HasNan`, written per field, equal the general vector's folds over the same components |
| Fixed3D.ZeroAgrees | src/fixed.rs:186-198 | `Fixed3D.Zero` is the general zero of dimension `DIM`; `Fixed3D.IsZero` holds exactly of it, as for the general vector |
| Fixed3D.ArithmeticAgrees | src/fixed.rs:200-246 | `Fixed3D.Neg`, `Add`, `Sub`, `Mul`, `LeftMul` and `Div` act on the fields as the general operators act on the same array |
| Fixed3D.AlgebraLaws | src/fixed.rs:200-246 | the general vector's laws hold for `Fixed3D`: `+` commutes and associates, `a - b == a + (-b)`, zero is a two-sided identity with `a - a == zero`, and the five scaling laws (proved for `*` and `/` by transfer through `ToND`) |
| Fixed3D.SumAgrees | src/fixed.rs:267-272 | `Fixed3D.Sum`, the fold of `+` from `zero()` agrees with the general vector's sum of the converted vectors |
| Fixed3D.NormAgrees | src/lib.rs:71-73 | `Fixed3D.Norm`, the default `Vector.Norm`, equals the general vector's norm |
| Fixed3D.DistanceAgrees | src/lib.rs:77-79 | `Fixed3D.Distance`, the default `Vector.Distance`, equals the general vector's distance |
| Fixed3D.DistanceSqrAgrees | src/lib.rs:83-85 | `Fixed3D.DistanceSqr`, the default `Vector.DistanceSqr`, equals the general vector's distance_sqr |
| Fixed3D.MetricProperties | src/lib.rs:83-85 | `norm_sqr` is `dot` with itself, non-negative and zero only at `zero()`; `distance_sqr` is symmetric, non-negative and zero only between equal vectors |
| Scenarios.FixedNormSqrAndDotCases | src/fixed/tests.rs:3-41 | the fixed tests' `norm_sqr` and `dot` values, e.g. `Vec2D(2,3)` gives 13 and `(10,-8,6)·(3,-5,7)` gives 112 |
| Scenarios.GeneralNormSqrAndDotCases | src/general/tests.rs:3-41 | the general tests' `norm_sqr` and `dot` values, e.g. `[3,4,5]` gives 50 and `[-5,8]·[6,9]` gives 42 |
| Scenarios.FixedNormCases | src/fixed/tests.rs:79-93 | with a true square root, the fixed tests' norms: `Vec1D(-3)` gives 3, `(5,12)` gives 13 and `(-9,6,2)` gives 11 |
| Scenarios.GeneralNormCases | src/general/tests.rs:79-93 | with a true square root, the general tests' norms: `[-4,3]` gives 5 and `[2,3,6]` gives 7 |
| Scenarios.FixedDistanceCases | src/fixed/tests.rs:95-119 | the fixed tests' distances and squared distances, e.g. `(3,2,1)` to `(4,-2,9)` at distance 9 and `(1,2)` to `(5,-1)` at squared distance 25 |
| Scenarios.GeneralDistanceCases | src/general/tests.rs:95-119 | the general tests' `[1,2]` to `[5,-1]` at distance 5 and `[3,2,1]` to `[4,-2,9]` at squared distance 81 |
| Scenarios.FixedOperatorCases | src/fixed/tests.rs:121-334 | the tests' `zero`, `is_zero`, negation, `+`, `-`, `*`, `/` and `s *` (`num_mul`) values on fixed vectors |
| Scenarios.GeneralIsZeroCase | src/general/tests.rs:129-144 | `[1, 0]` is not zero |
| Scenarios.GeneralDivCase | src/general/tests.rs:313-353 | `[-10, -15] / -5 == [2, 3]` |
| Scenarios.FixedSumCase | src/fixed/tests.rs:435-465 | `(1,5,2) + (3,-3,9) + (-2,7,-18) == (2,9,-7)` |
| Scenarios.GeneralSumCase | src/general/tests.rs:495-529 | `[1,5] + [3,-3] + [-2,7] == [2,9]` |
| Scenarios.ZipMapCases | src/array.rs:37-68 | `arr_zip_map` maps `[5, 8]` and `[3, 2]` by `+` to `[8, 10]`, and gives an empty result on empty arrays, also over an element type with no known value, without calling the function |
| Scenarios.FixedAssignCases | src/fixed/tests.rs:337-408 | `Vec3D(1, 5, -2) += (4, 2, -1)` leaves `(5, 7, -3)` and `Vec3D(-1, 7, 5) *= -10` leaves `(10, -70, -50)`, as the tests assert |
| Scenarios.GeneralAssignCases | src/general/tests.rs:421-492 | `VecND([1, 5]) -= [4, 2]` leaves `[-3, 3]` and `VecND([-10, -15]) /= -5` leaves `[2, 3]`, as the tests assert |
| Scenarios.FixedFiniteAndNanCases | src/fixed/tests.rs:43-77 | the fixed tests' `is_finite`/`has_nan` verdicts on zero, infinite and NaN components; the one `has_nan` verdict on an infinity follows from the component test's `!nan(inf)` and is asserted by no test |
| Scenarios.GeneralFiniteAndNanCases | src/general/tests.rs:43-77 | the general tests' `is_finite`/`has_nan` verdicts on zero, infinite and NaN components; the one `has_nan` verdict on an infinity follows from the component test's `!nan(inf)` and is asserted by no test |

## Left out

- Floating-point behaviour is not modelled: rounding, infinities, NaN
  arithmetic, NaN being unequal to itself under the derived `PartialEq`,
  and the difference between `f32` and `f64`. Components are exact reals.
- `is_nan`, `is_finite` and `sqrt` are parameters, not definitions. Only
  `Component.IsSqrt` is assumed of `sqrt`, and only by the lemmas that
  require it.
- General.Div: requires a non-zero scalar, because real division by zero is
  undefined. The library divides by any scalar and yields infinities or
  NaN.
- General.VecNDVar.DivAssign: requires a non-zero scalar, for the same
  reason.
- Fixed1D.Div: requires a non-zero scalar, for the same reason.
- Fixed2D.Div: requires a non-zero scalar, for the same reason.
- Fixed3D.Div: requires a non-zero scalar, for the same reason.
- Fixed1D.Vec1DVar.DivAssign: requires a non-zero scalar, for the same reason.
- Fixed2D.Vec2DVar.DivAssign: requires a non-zero scalar, for the same reason.
- Fixed3D.Vec3DVar.DivAssign: requires a non-zero scalar, for the same reason.
- General.VecNDVar.AddAssign, General.VecNDVar.SubAssign: require the
  right-hand side to have the receiver's length. This is what the type
  `VecND<S, N>` guarantees in Rust.
- General.Add, General.Sub: one length for both operands is not enforced
  here. The zip truncates to the shorter operand, which changes nothing
  when the two lengths are equal, as Rust's types make them.
- Every operator exists in Rust for owned and borrowed operands, and gives
  the same result either way. The model has one operator for each.
- Scalar-on-the-left `*` exists only for `f32` and `f64` in the library.
  Over `real` the two collapse into one `LeftMul`.
- Operand and result component types are all `real`. The Rust operators
  are generic in them (`T: Add<S>`), and only `arr_zip_map` keeps three
  distinct element types.
- `AsRef`/`AsMut` on `VecND` (src/general.rs:231-241) are plain access to
  the array: `General.ToArray` for reading and the `arr` field of
  `General.VecNDVar` for writing. They are not separate members.
- `transpose_array_of_uninit` and the `MaybeUninit`, `ManuallyDrop` and
  `transmute_copy` memory layout are not modelled. Only the invariant on
  written and unwritten slots is kept. Panics and unwinding inside `map`
  have no model.
- `Infallible` is modelled by `Scenarios.Never`, a type of which no value
  is known. A type proved to have no values would need a declaration
  without a witness, which is not used here. `Array.ArrZipMap` puts no
  inhabitance requirement on its element types, and its `calls` count
  shows that `map` is never invoked when N = 0.
- Dafny has no 1-tuples. `Vec1D`'s conversions to and from `(T,)` are
  written with a bare `T`.
- src/ops.rs declares only trait bounds, with no behaviour, so it is not
  part of this model. Also left out: the serde derives, `Debug`
  formatting, the type aliases in src/lib.rs, and the macros, whose
  expansions are modelled instead.
