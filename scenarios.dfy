/** Cases from the crate's own test suites, stated over the model. Some
    of the general vector's cases follow from the fixed vectors' through
    the agreement lemmas; the others are proved directly. */
module Scenarios {
  import Component
  import Array
  import General
  import Fixed1D
  import Fixed2D
  import Fixed3D

  /** `norm_sqr` and `dot` on fixed vectors. */
  lemma FixedNormSqrAndDotCases()
    ensures Fixed1D.NormSqr(Fixed1D.Vec1D(-3.0)) == 9.0
    ensures Fixed2D.NormSqr(Fixed2D.Vec2D(2.0, 3.0)) == 13.0
    ensures Fixed3D.NormSqr(Fixed3D.Vec3D(-4.0, 3.0, 2.0)) == 29.0
    ensures Fixed1D.Dot(Fixed1D.Vec1D(2.0), Fixed1D.Vec1D(-4.0)) == -8.0
    ensures Fixed3D.Dot(Fixed3D.Vec3D(10.0, -8.0, 6.0), Fixed3D.Vec3D(3.0, -5.0, 7.0)) == 112.0
  {
  }

  /** `norm_sqr` and `dot` on general vectors, through the fixed vectors'. */
  lemma GeneralNormSqrAndDotCases()
    ensures General.NormSqr(General.VecND([2.0, 3.0])) == 13.0
    ensures General.NormSqr(General.VecND([3.0, 4.0, 5.0])) == 50.0
    ensures General.Dot(General.VecND([-5.0, 8.0]), General.VecND([6.0, 9.0])) == 42.0
    ensures General.Dot(General.VecND([2.0, 3.0, 4.0]), General.VecND([3.0, 4.0, -5.0])) == -2.0
  {
    var t := (_: real) => true;
    Fixed2D.QueriesAgree(Fixed2D.Vec2D(2.0, 3.0), Fixed2D.Vec2D(-5.0, 8.0), t, t);
    Fixed2D.QueriesAgree(Fixed2D.Vec2D(-5.0, 8.0), Fixed2D.Vec2D(6.0, 9.0), t, t);
    Fixed3D.QueriesAgree(Fixed3D.Vec3D(3.0, 4.0, 5.0), Fixed3D.Vec3D(3.0, 4.0, 5.0), t, t);
    Fixed3D.QueriesAgree(Fixed3D.Vec3D(2.0, 3.0, 4.0), Fixed3D.Vec3D(3.0, 4.0, -5.0), t, t);
  }

  /** `norm` on fixed vectors: the absolute value in one dimension, the
      square root of `norm_sqr` otherwise. */
  lemma FixedNormCases(sqrt: real -> real)
    requires Component.IsSqrt(sqrt)
    ensures Fixed1D.Norm(Fixed1D.Vec1D(-3.0)) == 3.0
    ensures Fixed2D.Norm(Fixed2D.Vec2D(5.0, 12.0), sqrt) == 13.0
    ensures Fixed3D.Norm(Fixed3D.Vec3D(-9.0, 6.0, 2.0), sqrt) == 11.0
  {
    Component.SqrtOfSquare(sqrt, 13.0);
    Component.SqrtOfSquare(sqrt, 11.0);
  }

  /** `norm` on general vectors, through the fixed vectors'. */
  lemma GeneralNormCases(sqrt: real -> real)
    requires Component.IsSqrt(sqrt)
    ensures General.Norm(General.VecND([-4.0, 3.0]), sqrt) == 5.0
    ensures General.Norm(General.VecND([2.0, 3.0, 6.0]), sqrt) == 7.0
  {
    Component.SqrtOfSquare(sqrt, 5.0);
    Component.SqrtOfSquare(sqrt, 7.0);
    Fixed2D.NormAgrees(Fixed2D.Vec2D(-4.0, 3.0), sqrt);
    Fixed3D.NormAgrees(Fixed3D.Vec3D(2.0, 3.0, 6.0), sqrt);
  }

  /** `distance` and `distance_sqr` on fixed vectors. */
  lemma FixedDistanceCases(sqrt: real -> real)
    requires Component.IsSqrt(sqrt)
    ensures Fixed1D.Distance(Fixed1D.Vec1D(1.0), Fixed1D.Vec1D(3.0)) == 2.0
    ensures Fixed2D.Distance(Fixed2D.Vec2D(1.0, 2.0), Fixed2D.Vec2D(5.0, -1.0), sqrt) == 5.0
    ensures Fixed3D.Distance(Fixed3D.Vec3D(3.0, 2.0, 1.0), Fixed3D.Vec3D(4.0, -2.0, 9.0), sqrt) == 9.0
    ensures Fixed1D.DistanceSqr(Fixed1D.Vec1D(1.0), Fixed1D.Vec1D(3.0)) == 4.0
    ensures Fixed2D.DistanceSqr(Fixed2D.Vec2D(1.0, 2.0), Fixed2D.Vec2D(5.0, -1.0)) == 25.0
  {
    Component.SqrtOfSquare(sqrt, 5.0);
    Component.SqrtOfSquare(sqrt, 9.0);
  }

  /** `distance` and `distance_sqr` on general vectors, through the fixed
      vectors'. */
  lemma GeneralDistanceCases(sqrt: real -> real)
    requires Component.IsSqrt(sqrt)
    ensures General.Distance(General.VecND([1.0, 2.0]), General.VecND([5.0, -1.0]), sqrt) == 5.0
    ensures General.DistanceSqr(General.VecND([3.0, 2.0, 1.0]), General.VecND([4.0, -2.0, 9.0])) == 81.0
  {
    Component.SqrtOfSquare(sqrt, 5.0);
    Fixed2D.DistanceAgrees(Fixed2D.Vec2D(1.0, 2.0), Fixed2D.Vec2D(5.0, -1.0), sqrt);
    Fixed3D.DistanceSqrAgrees(Fixed3D.Vec3D(3.0, 2.0, 1.0), Fixed3D.Vec3D(4.0, -2.0, 9.0));
  }

  /** `zero`, `is_zero` and the operators on fixed vectors. */
  lemma FixedOperatorCases()
    ensures Fixed2D.Zero() == Fixed2D.Vec2D(0.0, 0.0)
    ensures !Fixed3D.IsZero(Fixed3D.Vec3D(0.0, 1.0, 0.0))
    ensures Fixed2D.Neg(Fixed2D.Vec2D(2.0, -5.0)) == Fixed2D.Vec2D(-2.0, 5.0)
    ensures Fixed2D.Add(Fixed2D.Vec2D(1.0, 5.0), Fixed2D.Vec2D(4.0, 2.0)) == Fixed2D.Vec2D(5.0, 7.0)
    ensures Fixed3D.Sub(Fixed3D.Vec3D(1.0, 5.0, -2.0), Fixed3D.Vec3D(4.0, 2.0, -1.0)) == Fixed3D.Vec3D(-3.0, 3.0, -1.0)
    ensures Fixed2D.Mul(Fixed2D.Vec2D(2.0, 3.0), -5.0) == Fixed2D.Vec2D(-10.0, -15.0)
    ensures Fixed3D.LeftMul(-10.0, Fixed3D.Vec3D(-1.0, 7.0, 5.0)) == Fixed3D.Vec3D(10.0, -70.0, -50.0)
    ensures Fixed3D.Div(Fixed3D.Vec3D(10.0, -70.0, -50.0), -10.0) == Fixed3D.Vec3D(-1.0, 7.0, 5.0)
  {
  }

  /** `is_zero` on a general vector with a non-zero component. */
  lemma GeneralIsZeroCase()
    ensures !General.IsZero(General.VecND([1.0, 0.0]))
  {
  }

  /** `/` on a general vector. */
  lemma GeneralDivCase()
    ensures General.Div(General.VecND([-10.0, -15.0]), -5.0) == General.VecND([2.0, 3.0])
  {
  }

  /** `Sum` of three fixed vectors. */
  lemma FixedSumCase()
    ensures Fixed3D.Sum([Fixed3D.Vec3D(1.0, 5.0, 2.0), Fixed3D.Vec3D(3.0, -3.0, 9.0), Fixed3D.Vec3D(-2.0, 7.0, -18.0)])
         == Fixed3D.Vec3D(2.0, 9.0, -7.0)
  {
    var ws := [Fixed3D.Vec3D(1.0, 5.0, 2.0), Fixed3D.Vec3D(3.0, -3.0, 9.0), Fixed3D.Vec3D(-2.0, 7.0, -18.0)];
    assert ws[..1][..0] == [];
    assert Fixed3D.Sum(ws[..1]) == ws[0];
    assert ws[..2][..1] == ws[..1];
    assert Fixed3D.Sum(ws[..2]) == Fixed3D.Vec3D(4.0, 2.0, 11.0);
    assert ws[..3][..2] == ws[..2];
  }

  /** `Sum` of three general vectors, through the fixed vectors' sum. */
  lemma GeneralSumCase()
    ensures General.Sum(2, [General.VecND([1.0, 5.0]), General.VecND([3.0, -3.0]), General.VecND([-2.0, 7.0])])
         == General.VecND([2.0, 9.0])
  {
    var vs := [Fixed2D.Vec2D(1.0, 5.0), Fixed2D.Vec2D(3.0, -3.0), Fixed2D.Vec2D(-2.0, 7.0)];
    assert vs[..1][..0] == [];
    assert Fixed2D.Sum(vs[..1]) == vs[0];
    assert vs[..2][..1] == vs[..1];
    assert Fixed2D.Sum(vs[..2]) == Fixed2D.Vec2D(4.0, 2.0);
    assert vs[..3][..2] == vs[..2];
    Fixed2D.SumAgrees(vs);
    assert Array.MapEach(vs, Fixed2D.ToND)
        == [General.VecND([1.0, 5.0]), General.VecND([3.0, -3.0]), General.VecND([-2.0, 7.0])];
  }

  /** `is_finite` and `has_nan` on fixed vectors, for any component
      tests under which zero is finite and not NaN, an infinity is
      neither, and a NaN is NaN and not finite. The one verdict on an
      infinity under `has_nan` follows from `!nan(inf)`; the others are
      the tests' own. */
  lemma FixedFiniteAndNanCases(finite: real -> bool, nan: real -> bool, inf: real, nanValue: real)
    requires finite(0.0) && !nan(0.0)
    requires !finite(inf) && !nan(inf)
    requires !finite(nanValue) && nan(nanValue)
    ensures !Fixed1D.IsFinite(Fixed1D.Vec1D(nanValue), finite)
    ensures !Fixed2D.IsFinite(Fixed2D.Vec2D(inf, 0.0), finite)
    ensures Fixed3D.IsFinite(Fixed3D.Vec3D(0.0, 0.0, 0.0), finite)
    ensures Fixed3D.HasNan(Fixed3D.Vec3D(0.0, nanValue, 0.0), nan)
    ensures !Fixed2D.HasNan(Fixed2D.Vec2D(0.0, 0.0), nan)
    ensures !Fixed2D.HasNan(Fixed2D.Vec2D(inf, 0.0), nan)
  {
  }

  /** `is_finite` and `has_nan` on general vectors, under the same
      component tests. The verdict on an infinity under `has_nan` follows
      from `!nan(inf)`; the others are the tests' own. */
  lemma GeneralFiniteAndNanCases(finite: real -> bool, nan: real -> bool, inf: real, nanValue: real)
    requires finite(0.0) && !nan(0.0)
    requires !finite(inf) && !nan(inf)
    requires !finite(nanValue) && nan(nanValue)
    ensures !General.IsFinite(General.VecND([0.0, inf]), finite)
    ensures General.IsFinite(General.VecND([0.0, 0.0, 0.0]), finite)
    ensures General.HasNan(General.VecND([nanValue, 0.0]), nan)
    ensures !General.HasNan(General.VecND([0.0, 0.0, 0.0]), nan)
    ensures !General.HasNan(General.VecND([0.0, inf]), nan)
  {
    assert General.VecND([nanValue, 0.0]).arr[0] == nanValue;
    assert General.VecND([0.0, inf]).arr[1] == inf;
  }

  /** A type with no known value, standing in for `Infallible`. */
  type Never

  /** `arr_zip_map` on two pairs, and on empty arrays, one of them over an
      element type with no known value, where the combining function is
      never called. */
  method ZipMapCases() returns (pair: seq<int>, empty: seq<real>, noNumbers: seq<int>, noNevers: seq<Never>)
    ensures pair == [8, 10]
    ensures empty == [] && noNumbers == [] && noNevers == []
  {
    var a := new int[2];
    a[0], a[1] := 5, 8;
    var b := new int[2];
    b[0], b[1] := 3, 2;
    ghost var calls;
    pair, calls := Array.ArrZipMap(a, b, (x: int, y: int) => x + y);

    var e := new int[0];
    var f := new real[0];
    empty, calls := Array.ArrZipMap(e, f, (x: int, y: real) => x as real + y);
    assert calls == 0;

    var nevers := new Never[0];
    noNumbers, calls := Array.ArrZipMap(e, nevers, (x: int, _: Never) => x + 12);
    assert calls == 0;
    noNevers, calls := Array.ArrZipMap(nevers, e, (n: Never, _: int) => n);
    assert calls == 0;
  }

  /** Compound assignment on a fixed vector: `+=` and `*=`, each from the
      inputs the tests use. */
  method FixedAssignCases() returns (added: Fixed3D.Vec3D<real>, scaled: Fixed3D.Vec3D<real>)
    ensures added == Fixed3D.Vec3D(5.0, 7.0, -3.0)
    ensures scaled == Fixed3D.Vec3D(10.0, -70.0, -50.0)
  {
    var u := new Fixed3D.Vec3DVar(Fixed3D.Vec3D(1.0, 5.0, -2.0));
    u.AddAssign(Fixed3D.Vec3D(4.0, 2.0, -1.0));
    added := u.Value();

    var v := new Fixed3D.Vec3DVar(Fixed3D.Vec3D(-1.0, 7.0, 5.0));
    v.MulAssign(-10.0);
    scaled := v.Value();
  }

  /** Compound assignment on a general vector: `-=` and `/=`, each from the
      inputs the tests use. */
  method GeneralAssignCases() returns (subtracted: General.VecND<real>, divided: General.VecND<real>)
    ensures subtracted == General.VecND([-3.0, 3.0])
    ensures divided == General.VecND([2.0, 3.0])
  {
    var w := new General.VecNDVar(General.VecND([1.0, 5.0]));
    w.SubAssign(General.VecND([4.0, 2.0]));
    assert w.Value().arr == [-3.0, 3.0];
    subtracted := w.Value();

    var z := new General.VecNDVar(General.VecND([-10.0, -15.0]));
    z.DivAssign(-5.0);
    assert z.Value().arr == [2.0, 3.0];
    divided := z.Value();
  }
}
