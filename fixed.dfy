/** `Vec1D<T>`: a 1-dimensional vector with the named component `x`. */
module Fixed1D {
  import Component
  import opened Array
  import Vector
  import General

  datatype Vec1D<T> = Vec1D(x: T)

  /** `DIM`. */
  const DIM: nat := 1

  // ---------------------------------------------------------------------
  // The `Vector` implementation

  function NormSqr(v: Vec1D<real>): real
  {
    Component.Square(v.x)
  }

  function Dot(a: Vec1D<real>, b: Vec1D<real>): real
  {
    Component.Product(a.x, b.x)
  }

  function IsFinite(v: Vec1D<real>, finite: real -> bool): bool
  {
    finite(v.x)
  }

  function HasNan(v: Vec1D<real>, nan: real -> bool): bool
  {
    nan(v.x)
  }

  /** `norm`, overridden here by the absolute value of the component. */
  function Norm(v: Vec1D<real>): real
  {
    Component.Abs(v.x)
  }

  /** The default `distance`, over the overriding `norm`. */
  function Distance(a: Vec1D<real>, b: Vec1D<real>): real
  {
    Vector.Distance(Norm, Sub, a, b)
  }

  /** The default `distance_sqr`. */
  function DistanceSqr(a: Vec1D<real>, b: Vec1D<real>): real
  {
    Vector.DistanceSqr(NormSqr, Sub, a, b)
  }

  // ---------------------------------------------------------------------
  // `Zero`, `Neg` and the arithmetic operators, component by component

  function Zero(): Vec1D<real>
  {
    Vec1D(0.0)
  }

  function IsZero(v: Vec1D<real>): bool
  {
    v.x == 0.0
  }

  function Neg(v: Vec1D<real>): Vec1D<real>
  {
    Vec1D(-v.x)
  }

  function Add(a: Vec1D<real>, b: Vec1D<real>): Vec1D<real>
  {
    Vec1D(a.x + b.x)
  }

  function Sub(a: Vec1D<real>, b: Vec1D<real>): Vec1D<real>
  {
    Vec1D(a.x - b.x)
  }

  /** `vector * scalar`. */
  function Mul(v: Vec1D<real>, s: real): Vec1D<real>
  {
    Vec1D(Component.Product(v.x, s))
  }

  /** `vector / scalar`. */
  function Div(v: Vec1D<real>, s: real): Vec1D<real>
    requires s != 0.0
  {
    Vec1D(v.x / s)
  }

  /** `scalar * vector`. */
  function LeftMul(s: real, v: Vec1D<real>): Vec1D<real>
  {
    Vec1D(Component.Product(s, v.x))
  }

  /** `Sum`: a left fold of `+` over the vectors, starting at `zero()`. */
  function Sum(vs: seq<Vec1D<real>>): Vec1D<real>
  {
    if vs == [] then Zero() else Add(Sum(vs[..|vs| - 1]), vs[|vs| - 1])
  }

  // ---------------------------------------------------------------------
  // Conversions

  /** `From<[T; 1]>`: the array's elements, in order, become the components. */
  function FromArray<T>(a: seq<T>): Vec1D<T>
    requires |a| == DIM
  {
    Vec1D(a[0])
  }

  function ToArray<T>(v: Vec1D<T>): seq<T>
  {
    [v.x]
  }

  /** From a 1-tuple; a 1-tuple of `T` is written here as a bare `T`. */
  function FromTuple<T>(t: T): Vec1D<T>
  {
    Vec1D(t)
  }

  function ToTuple<T>(v: Vec1D<T>): T
  {
    v.x
  }

  /** `From<VecND<T, 1>>`: through the general vector's array. */
  function FromND<T>(g: General.VecND<T>): Vec1D<T>
    requires |g.arr| == DIM
  {
    FromArray(General.ToArray(g))
  }

  /** `From<Vec1D<T>> for VecND<T, 1>`: through an array of the components. */
  function ToND<T>(v: Vec1D<T>): General.VecND<T>
  {
    General.FromArray(ToArray(v))
  }

  // ---------------------------------------------------------------------
  // `+=`, `-=`, `*=` and `/=`: a mutable place, updated field by field

  class Vec1DVar {
    var x: real

    function Value(): Vec1D<real>
      reads this
    {
      Vec1D(x)
    }

    constructor (v: Vec1D<real>)
      ensures Value() == v
    {
      x := v.x;
    }

    method AddAssign(rhs: Vec1D<real>)
      modifies this
      ensures x == old(x) + rhs.x
      ensures Value() == Add(old(Value()), rhs)
    {
      x := x + rhs.x;
    }

    method SubAssign(rhs: Vec1D<real>)
      modifies this
      ensures x == old(x) - rhs.x
      ensures Value() == Sub(old(Value()), rhs)
    {
      x := x - rhs.x;
    }

    method MulAssign(s: real)
      modifies this
      ensures x == old(x) * s
      ensures Value() == Mul(old(Value()), s)
    {
      x := Component.Product(x, s);
    }

    method DivAssign(s: real)
      requires s != 0.0
      modifies this
      ensures x == old(x) / s
      ensures Value() == Div(old(Value()), s)
    {
      x := x / s;
    }
  }

  // ---------------------------------------------------------------------
  // Properties

  /** Every conversion is undone by its opposite, and keeps the order
      of the components. */
  lemma ConversionsRoundTrip<T>(v: Vec1D<T>, a: seq<T>, t: T, g: General.VecND<T>)
    ensures FromArray(ToArray(v)) == v
    ensures |a| == DIM ==> ToArray(FromArray(a)) == a
    ensures FromTuple(ToTuple(v)) == v
    ensures ToTuple(FromTuple(t)) == t
    ensures FromND(ToND(v)) == v
    ensures |g.arr| == DIM ==> ToND(FromND(g)) == g
    ensures General.Dim(ToND(v)) == DIM
    ensures ToArray(FromTuple(t)) == [t]
  {
  }

  /** `norm_sqr`, `dot`, `is_finite` and `has_nan` written out per field
      agree with the general vector's folds over the same components. */
  lemma QueriesAgree(a: Vec1D<real>, b: Vec1D<real>, finite: real -> bool, nan: real -> bool)
    ensures NormSqr(a) == General.NormSqr(ToND(a))
    ensures Dot(a, b) == General.Dot(ToND(a), ToND(b))
    ensures IsFinite(a, finite) == General.IsFinite(ToND(a), finite)
    ensures HasNan(a, nan) == General.HasNan(ToND(a), nan)
  {
    assert MapEach(ToND(a).arr, Component.Square) == [Component.Square(a.x)];
    assert ZipWith(ToND(a).arr, ToND(b).arr, Component.Product) == [Component.Product(a.x, b.x)];
    Component.SumOfFew(Component.Square(a.x), 0.0, 0.0);
    Component.SumOfFew(Component.Product(a.x, b.x), 0.0, 0.0);
  }

  /** `zero()` is the general zero of dimension DIM, and `is_zero` holds
      exactly of it, as it does for the general vector. */
  lemma ZeroAgrees(v: Vec1D<real>)
    ensures ToND(Zero()) == General.Zero(DIM)
    ensures IsZero(v) <==> v == Zero()
    ensures IsZero(v) == General.IsZero(ToND(v))
  {
  }

  /** Every operator acts on the components as the general vector's
      operator does on the same array. */
  lemma ArithmeticAgrees(a: Vec1D<real>, b: Vec1D<real>, s: real)
    ensures ToND(Neg(a)) == General.Neg(ToND(a))
    ensures ToND(Add(a, b)) == General.Add(ToND(a), ToND(b))
    ensures ToND(Sub(a, b)) == General.Sub(ToND(a), ToND(b))
    ensures ToND(Mul(a, s)) == General.Mul(ToND(a), s)
    ensures ToND(LeftMul(s, a)) == General.LeftMul(s, ToND(a))
    ensures s != 0.0 ==> ToND(Div(a, s)) == General.Div(ToND(a), s)
  {
  }

  /** Summing vectors here and summing their general forms agree. */
  lemma {:induction false} SumAgrees(vs: seq<Vec1D<real>>)
    ensures ToND(Sum(vs)) == General.Sum(DIM, MapEach(vs, ToND))
  {
    if vs == [] {
      ZeroAgrees(Zero());
    } else {
      var init := vs[..|vs| - 1];
      SumAgrees(init);
      ArithmeticAgrees(Sum(init), vs[|vs| - 1], 0.0);
      assert MapEach(vs, ToND)[..|vs| - 1] == MapEach(init, ToND);
    }
  }

  /** With a true square root, the overriding `norm` (the absolute
      value) is the default norm, and hence the general vector's. */
  lemma NormAgrees(v: Vec1D<real>, sqrt: real -> real)
    requires Component.IsSqrt(sqrt)
    ensures Norm(v) == Vector.Norm(NormSqr, sqrt, v)
    ensures Norm(v) == General.Norm(ToND(v), sqrt)
  {
    Component.SqrtOfSquare(sqrt, v.x);
    QueriesAgree(v, v, _ => true, _ => true);
  }

  /** `distance` is the absolute difference of the components; no
      square root is involved, since the overriding norm is `abs`. */
  lemma DistanceIsAbsDifference(a: Vec1D<real>, b: Vec1D<real>)
    ensures Distance(a, b) == Component.Abs(a.x - b.x)
  {
  }

  /** `distance` agrees with the general vector's, and is the
      absolute difference of the components. */
  lemma DistanceAgrees(a: Vec1D<real>, b: Vec1D<real>, sqrt: real -> real)
    requires Component.IsSqrt(sqrt)
    ensures Distance(a, b) == Component.Abs(a.x - b.x)
    ensures Distance(a, b) == General.Distance(ToND(a), ToND(b), sqrt)
  {
    ArithmeticAgrees(a, b, 0.0);
    NormAgrees(Sub(a, b), sqrt);
    QueriesAgree(Sub(a, b), Sub(a, b), _ => true, _ => true);
  }

  /** `distance_sqr` agrees with the general vector's. */
  lemma DistanceSqrAgrees(a: Vec1D<real>, b: Vec1D<real>)
    ensures DistanceSqr(a, b) == General.DistanceSqr(ToND(a), ToND(b))
  {
    ArithmeticAgrees(a, b, 0.0);
    QueriesAgree(Sub(a, b), Sub(a, b), _ => true, _ => true);
  }

  /** The vector-space laws of the general vector hold here too:
      `+` commutes and associates, `a - b == a + (-b)`, zero is the
      identity, and the scaling laws. */
  lemma AlgebraLaws(a: Vec1D<real>, b: Vec1D<real>, c: Vec1D<real>, s: real, t: real)
    ensures Add(a, b) == Add(b, a)
    ensures Add(Add(a, b), c) == Add(a, Add(b, c))
    ensures Sub(a, b) == Add(a, Neg(b))
    ensures Add(a, Zero()) == a && Add(Zero(), a) == a && Sub(a, a) == Zero()
    ensures Mul(Mul(a, s), t) == Mul(a, s * t)
    ensures Mul(a, 1.0) == a && Mul(a, 0.0) == Zero()
    ensures LeftMul(s, a) == Mul(a, s)
    ensures s != 0.0 ==> Div(a, s) == Mul(a, 1.0 / s)
  {
    // The scaling laws carry over from the general vector through `ToND`.
    General.ScaleLaws(ToND(a), s, t);
    ArithmeticAgrees(a, b, s);
    ArithmeticAgrees(Mul(a, s), b, t);
    ArithmeticAgrees(a, b, s * t);
    assert ToND(Mul(Mul(a, s), t)) == ToND(Mul(a, s * t));
    if s != 0.0 {
      ArithmeticAgrees(a, b, 1.0 / s);
      assert ToND(Div(a, s)) == ToND(Mul(a, 1.0 / s));
    }
  }

  /** `norm_sqr` is the dot product with itself, non-negative, and zero
      exactly for the zero vector; `distance_sqr` is symmetric,
      non-negative, and zero exactly between equal vectors. */
  lemma MetricProperties(a: Vec1D<real>, b: Vec1D<real>)
    ensures NormSqr(a) == Dot(a, a)
    ensures 0.0 <= NormSqr(a)
    ensures NormSqr(a) == 0.0 <==> a == Zero()
    ensures DistanceSqr(a, b) == DistanceSqr(b, a)
    ensures 0.0 <= DistanceSqr(a, b)
    ensures DistanceSqr(a, b) == 0.0 <==> a == b
  {
    QueriesAgree(a, a, _ => true, _ => true);
    General.NormSqrIsDot(ToND(a));
    General.NormSqrZeroIff(ToND(a));
    ZeroAgrees(a);
    DistanceSqrAgrees(a, b);
    DistanceSqrAgrees(b, a);
    General.DistanceSqrSymmetric(ToND(a), ToND(b));
    General.DistanceSqrZeroIff(ToND(a), ToND(b));
    ConversionsRoundTrip(a, [], a.x, ToND(b));
    ConversionsRoundTrip(b, [], b.x, ToND(a));
  }
}

/** `Vec2D<T>`: a 2-dimensional vector with the named components `x`, `y`. */
module Fixed2D {
  import Component
  import opened Array
  import Vector
  import General

  datatype Vec2D<T> = Vec2D(x: T, y: T)

  /** `DIM`. */
  const DIM: nat := 2

  // ---------------------------------------------------------------------
  // The `Vector` implementation

  function NormSqr(v: Vec2D<real>): real
  {
    Component.Square(v.x) + Component.Square(v.y)
  }

  function Dot(a: Vec2D<real>, b: Vec2D<real>): real
  {
    Component.Product(a.x, b.x) + Component.Product(a.y, b.y)
  }

  function IsFinite(v: Vec2D<real>, finite: real -> bool): bool
  {
    finite(v.x) && finite(v.y)
  }

  function HasNan(v: Vec2D<real>, nan: real -> bool): bool
  {
    nan(v.x) || nan(v.y)
  }

  /** The default `norm`. */
  function Norm(v: Vec2D<real>, sqrt: real -> real): real
  {
    Vector.Norm(NormSqr, sqrt, v)
  }

  /** The default `distance`. */
  function Distance(a: Vec2D<real>, b: Vec2D<real>, sqrt: real -> real): real
  {
    Vector.Distance(v => Norm(v, sqrt), Sub, a, b)
  }

  /** The default `distance_sqr`. */
  function DistanceSqr(a: Vec2D<real>, b: Vec2D<real>): real
  {
    Vector.DistanceSqr(NormSqr, Sub, a, b)
  }

  // ---------------------------------------------------------------------
  // `Zero`, `Neg` and the arithmetic operators, component by component

  function Zero(): Vec2D<real>
  {
    Vec2D(0.0, 0.0)
  }

  function IsZero(v: Vec2D<real>): bool
  {
    v.x == 0.0 && v.y == 0.0
  }

  function Neg(v: Vec2D<real>): Vec2D<real>
  {
    Vec2D(-v.x, -v.y)
  }

  function Add(a: Vec2D<real>, b: Vec2D<real>): Vec2D<real>
  {
    Vec2D(a.x + b.x, a.y + b.y)
  }

  function Sub(a: Vec2D<real>, b: Vec2D<real>): Vec2D<real>
  {
    Vec2D(a.x - b.x, a.y - b.y)
  }

  /** `vector * scalar`. */
  function Mul(v: Vec2D<real>, s: real): Vec2D<real>
  {
    Vec2D(Component.Product(v.x, s), Component.Product(v.y, s))
  }

  /** `vector / scalar`. */
  function Div(v: Vec2D<real>, s: real): Vec2D<real>
    requires s != 0.0
  {
    Vec2D(v.x / s, v.y / s)
  }

  /** `scalar * vector`. */
  function LeftMul(s: real, v: Vec2D<real>): Vec2D<real>
  {
    Vec2D(Component.Product(s, v.x), Component.Product(s, v.y))
  }

  /** `Sum`: a left fold of `+` over the vectors, starting at `zero()`. */
  function Sum(vs: seq<Vec2D<real>>): Vec2D<real>
  {
    if vs == [] then Zero() else Add(Sum(vs[..|vs| - 1]), vs[|vs| - 1])
  }

  // ---------------------------------------------------------------------
  // Conversions

  /** `From<[T; 2]>`: the array's elements, in order, become the components. */
  function FromArray<T>(a: seq<T>): Vec2D<T>
    requires |a| == DIM
  {
    Vec2D(a[0], a[1])
  }

  function ToArray<T>(v: Vec2D<T>): seq<T>
  {
    [v.x, v.y]
  }

  /** From a 2-tuple. */
  function FromTuple<T>(t: (T, T)): Vec2D<T>
  {
    Vec2D(t.0, t.1)
  }

  function ToTuple<T>(v: Vec2D<T>): (T, T)
  {
    (v.x, v.y)
  }

  /** `From<VecND<T, 2>>`: through the general vector's array. */
  function FromND<T>(g: General.VecND<T>): Vec2D<T>
    requires |g.arr| == DIM
  {
    FromArray(General.ToArray(g))
  }

  /** `From<Vec2D<T>> for VecND<T, 2>`: through an array of the components. */
  function ToND<T>(v: Vec2D<T>): General.VecND<T>
  {
    General.FromArray(ToArray(v))
  }

  // ---------------------------------------------------------------------
  // `+=`, `-=`, `*=` and `/=`: a mutable place, updated field by field

  class Vec2DVar {
    var x: real
    var y: real

    function Value(): Vec2D<real>
      reads this
    {
      Vec2D(x, y)
    }

    constructor (v: Vec2D<real>)
      ensures Value() == v
    {
      x := v.x;
      y := v.y;
    }

    method AddAssign(rhs: Vec2D<real>)
      modifies this
      ensures x == old(x) + rhs.x
      ensures y == old(y) + rhs.y
      ensures Value() == Add(old(Value()), rhs)
    {
      x := x + rhs.x;
      y := y + rhs.y;
    }

    method SubAssign(rhs: Vec2D<real>)
      modifies this
      ensures x == old(x) - rhs.x
      ensures y == old(y) - rhs.y
      ensures Value() == Sub(old(Value()), rhs)
    {
      x := x - rhs.x;
      y := y - rhs.y;
    }

    method MulAssign(s: real)
      modifies this
      ensures x == old(x) * s
      ensures y == old(y) * s
      ensures Value() == Mul(old(Value()), s)
    {
      x := Component.Product(x, s);
      y := Component.Product(y, s);
    }

    method DivAssign(s: real)
      requires s != 0.0
      modifies this
      ensures x == old(x) / s
      ensures y == old(y) / s
      ensures Value() == Div(old(Value()), s)
    {
      x := x / s;
      y := y / s;
    }
  }

  // ---------------------------------------------------------------------
  // Properties

  /** Every conversion is undone by its opposite, and keeps the order
      of the components. */
  lemma ConversionsRoundTrip<T>(v: Vec2D<T>, a: seq<T>, t: (T, T), g: General.VecND<T>)
    ensures FromArray(ToArray(v)) == v
    ensures |a| == DIM ==> ToArray(FromArray(a)) == a
    ensures FromTuple(ToTuple(v)) == v
    ensures ToTuple(FromTuple(t)) == t
    ensures FromND(ToND(v)) == v
    ensures |g.arr| == DIM ==> ToND(FromND(g)) == g
    ensures General.Dim(ToND(v)) == DIM
    ensures ToArray(FromTuple(t)) == [t.0, t.1]
  {
  }

  /** `norm_sqr`, `dot`, `is_finite` and `has_nan` written out per field
      agree with the general vector's folds over the same components. */
  lemma QueriesAgree(a: Vec2D<real>, b: Vec2D<real>, finite: real -> bool, nan: real -> bool)
    ensures NormSqr(a) == General.NormSqr(ToND(a))
    ensures Dot(a, b) == General.Dot(ToND(a), ToND(b))
    ensures IsFinite(a, finite) == General.IsFinite(ToND(a), finite)
    ensures HasNan(a, nan) == General.HasNan(ToND(a), nan)
  {
    assert MapEach(ToND(a).arr, Component.Square) == [Component.Square(a.x), Component.Square(a.y)];
    assert ZipWith(ToND(a).arr, ToND(b).arr, Component.Product) == [Component.Product(a.x, b.x), Component.Product(a.y, b.y)];
    Component.SumOfFew(Component.Square(a.x), Component.Square(a.y), 0.0);
    Component.SumOfFew(Component.Product(a.x, b.x), Component.Product(a.y, b.y), 0.0);
  }

  /** `zero()` is the general zero of dimension DIM, and `is_zero` holds
      exactly of it, as it does for the general vector. */
  lemma ZeroAgrees(v: Vec2D<real>)
    ensures ToND(Zero()) == General.Zero(DIM)
    ensures IsZero(v) <==> v == Zero()
    ensures IsZero(v) == General.IsZero(ToND(v))
  {
  }

  /** Every operator acts on the components as the general vector's
      operator does on the same array. */
  lemma ArithmeticAgrees(a: Vec2D<real>, b: Vec2D<real>, s: real)
    ensures ToND(Neg(a)) == General.Neg(ToND(a))
    ensures ToND(Add(a, b)) == General.Add(ToND(a), ToND(b))
    ensures ToND(Sub(a, b)) == General.Sub(ToND(a), ToND(b))
    ensures ToND(Mul(a, s)) == General.Mul(ToND(a), s)
    ensures ToND(LeftMul(s, a)) == General.LeftMul(s, ToND(a))
    ensures s != 0.0 ==> ToND(Div(a, s)) == General.Div(ToND(a), s)
  {
  }

  /** Summing vectors here and summing their general forms agree. */
  lemma {:induction false} SumAgrees(vs: seq<Vec2D<real>>)
    ensures ToND(Sum(vs)) == General.Sum(DIM, MapEach(vs, ToND))
  {
    if vs == [] {
      ZeroAgrees(Zero());
    } else {
      var init := vs[..|vs| - 1];
      SumAgrees(init);
      ArithmeticAgrees(Sum(init), vs[|vs| - 1], 0.0);
      assert MapEach(vs, ToND)[..|vs| - 1] == MapEach(init, ToND);
    }
  }

  /** The default `norm` agrees with the general vector's. */
  lemma NormAgrees(v: Vec2D<real>, sqrt: real -> real)
    ensures Norm(v, sqrt) == General.Norm(ToND(v), sqrt)
  {
    QueriesAgree(v, v, _ => true, _ => true);
  }

  /** `distance` agrees with the general vector's. */
  lemma DistanceAgrees(a: Vec2D<real>, b: Vec2D<real>, sqrt: real -> real)
    ensures Distance(a, b, sqrt) == General.Distance(ToND(a), ToND(b), sqrt)
  {
    ArithmeticAgrees(a, b, 0.0);
    QueriesAgree(Sub(a, b), Sub(a, b), _ => true, _ => true);
  }

  /** `distance_sqr` agrees with the general vector's. */
  lemma DistanceSqrAgrees(a: Vec2D<real>, b: Vec2D<real>)
    ensures DistanceSqr(a, b) == General.DistanceSqr(ToND(a), ToND(b))
  {
    ArithmeticAgrees(a, b, 0.0);
    QueriesAgree(Sub(a, b), Sub(a, b), _ => true, _ => true);
  }

  /** The vector-space laws of the general vector hold here too:
      `+` commutes and associates, `a - b == a + (-b)`, zero is the
      identity, and the scaling laws. */
  lemma AlgebraLaws(a: Vec2D<real>, b: Vec2D<real>, c: Vec2D<real>, s: real, t: real)
    ensures Add(a, b) == Add(b, a)
    ensures Add(Add(a, b), c) == Add(a, Add(b, c))
    ensures Sub(a, b) == Add(a, Neg(b))
    ensures Add(a, Zero()) == a && Add(Zero(), a) == a && Sub(a, a) == Zero()
    ensures Mul(Mul(a, s), t) == Mul(a, s * t)
    ensures Mul(a, 1.0) == a && Mul(a, 0.0) == Zero()
    ensures LeftMul(s, a) == Mul(a, s)
    ensures s != 0.0 ==> Div(a, s) == Mul(a, 1.0 / s)
  {
    // The scaling laws carry over from the general vector through `ToND`.
    General.ScaleLaws(ToND(a), s, t);
    ArithmeticAgrees(a, b, s);
    ArithmeticAgrees(Mul(a, s), b, t);
    ArithmeticAgrees(a, b, s * t);
    assert ToND(Mul(Mul(a, s), t)) == ToND(Mul(a, s * t));
    if s != 0.0 {
      ArithmeticAgrees(a, b, 1.0 / s);
      assert ToND(Div(a, s)) == ToND(Mul(a, 1.0 / s));
    }
  }

  /** `norm_sqr` is the dot product with itself, non-negative, and zero
      exactly for the zero vector; `distance_sqr` is symmetric,
      non-negative, and zero exactly between equal vectors. */
  lemma MetricProperties(a: Vec2D<real>, b: Vec2D<real>)
    ensures NormSqr(a) == Dot(a, a)
    ensures 0.0 <= NormSqr(a)
    ensures NormSqr(a) == 0.0 <==> a == Zero()
    ensures DistanceSqr(a, b) == DistanceSqr(b, a)
    ensures 0.0 <= DistanceSqr(a, b)
    ensures DistanceSqr(a, b) == 0.0 <==> a == b
  {
    QueriesAgree(a, a, _ => true, _ => true);
    General.NormSqrIsDot(ToND(a));
    General.NormSqrZeroIff(ToND(a));
    ZeroAgrees(a);
    DistanceSqrAgrees(a, b);
    DistanceSqrAgrees(b, a);
    General.DistanceSqrSymmetric(ToND(a), ToND(b));
    General.DistanceSqrZeroIff(ToND(a), ToND(b));
    ConversionsRoundTrip(a, [], (a.x, a.y), ToND(b));
    ConversionsRoundTrip(b, [], (b.x, b.y), ToND(a));
  }
}

/** `Vec3D<T>`: a 3-dimensional vector with the named components `x`, `y`, `z`. */
module Fixed3D {
  import Component
  import opened Array
  import Vector
  import General

  datatype Vec3D<T> = Vec3D(x: T, y: T, z: T)

  /** `DIM`. */
  const DIM: nat := 3

  // ---------------------------------------------------------------------
  // The `Vector` implementation

  function NormSqr(v: Vec3D<real>): real
  {
    Component.Square(v.x) + Component.Square(v.y) + Component.Square(v.z)
  }

  function Dot(a: Vec3D<real>, b: Vec3D<real>): real
  {
    Component.Product(a.x, b.x) + Component.Product(a.y, b.y) + Component.Product(a.z, b.z)
  }

  function IsFinite(v: Vec3D<real>, finite: real -> bool): bool
  {
    finite(v.x) && finite(v.y) && finite(v.z)
  }

  function HasNan(v: Vec3D<real>, nan: real -> bool): bool
  {
    nan(v.x) || nan(v.y) || nan(v.z)
  }

  /** The default `norm`. */
  function Norm(v: Vec3D<real>, sqrt: real -> real): real
  {
    Vector.Norm(NormSqr, sqrt, v)
  }

  /** The default `distance`. */
  function Distance(a: Vec3D<real>, b: Vec3D<real>, sqrt: real -> real): real
  {
    Vector.Distance(v => Norm(v, sqrt), Sub, a, b)
  }

  /** The default `distance_sqr`. */
  function DistanceSqr(a: Vec3D<real>, b: Vec3D<real>): real
  {
    Vector.DistanceSqr(NormSqr, Sub, a, b)
  }

  // ---------------------------------------------------------------------
  // `Zero`, `Neg` and the arithmetic operators, component by component

  function Zero(): Vec3D<real>
  {
    Vec3D(0.0, 0.0, 0.0)
  }

  function IsZero(v: Vec3D<real>): bool
  {
    v.x == 0.0 && v.y == 0.0 && v.z == 0.0
  }

  function Neg(v: Vec3D<real>): Vec3D<real>
  {
    Vec3D(-v.x, -v.y, -v.z)
  }

  function Add(a: Vec3D<real>, b: Vec3D<real>): Vec3D<real>
  {
    Vec3D(a.x + b.x, a.y + b.y, a.z + b.z)
  }

  function Sub(a: Vec3D<real>, b: Vec3D<real>): Vec3D<real>
  {
    Vec3D(a.x - b.x, a.y - b.y, a.z - b.z)
  }

  /** `vector * scalar`. */
  function Mul(v: Vec3D<real>, s: real): Vec3D<real>
  {
    Vec3D(Component.Product(v.x, s), Component.Product(v.y, s), Component.Product(v.z, s))
  }

  /** `vector / scalar`. */
  function Div(v: Vec3D<real>, s: real): Vec3D<real>
    requires s != 0.0
  {
    Vec3D(v.x / s, v.y / s, v.z / s)
  }

  /** `scalar * vector`. */
  function LeftMul(s: real, v: Vec3D<real>): Vec3D<real>
  {
    Vec3D(Component.Product(s, v.x), Component.Product(s, v.y), Component.Product(s, v.z))
  }

  /** `Sum`: a left fold of `+` over the vectors, starting at `zero()`. */
  function Sum(vs: seq<Vec3D<real>>): Vec3D<real>
  {
    if vs == [] then Zero() else Add(Sum(vs[..|vs| - 1]), vs[|vs| - 1])
  }

  // ---------------------------------------------------------------------
  // Conversions

  /** `From<[T; 3]>`: the array's elements, in order, become the components. */
  function FromArray<T>(a: seq<T>): Vec3D<T>
    requires |a| == DIM
  {
    Vec3D(a[0], a[1], a[2])
  }

  function ToArray<T>(v: Vec3D<T>): seq<T>
  {
    [v.x, v.y, v.z]
  }

  /** From a 3-tuple. */
  function FromTuple<T>(t: (T, T, T)): Vec3D<T>
  {
    Vec3D(t.0, t.1, t.2)
  }

  function ToTuple<T>(v: Vec3D<T>): (T, T, T)
  {
    (v.x, v.y, v.z)
  }

  /** `From<VecND<T, 3>>`: through the general vector's array. */
  function FromND<T>(g: General.VecND<T>): Vec3D<T>
    requires |g.arr| == DIM
  {
    FromArray(General.ToArray(g))
  }

  /** `From<Vec3D<T>> for VecND<T, 3>`: through an array of the components. */
  function ToND<T>(v: Vec3D<T>): General.VecND<T>
  {
    General.FromArray(ToArray(v))
  }

  // ---------------------------------------------------------------------
  // `+=`, `-=`, `*=` and `/=`: a mutable place, updated field by field

  class Vec3DVar {
    var x: real
    var y: real
    var z: real

    function Value(): Vec3D<real>
      reads this
    {
      Vec3D(x, y, z)
    }

    constructor (v: Vec3D<real>)
      ensures Value() == v
    {
      x := v.x;
      y := v.y;
      z := v.z;
    }

    method AddAssign(rhs: Vec3D<real>)
      modifies this
      ensures x == old(x) + rhs.x
      ensures y == old(y) + rhs.y
      ensures z == old(z) + rhs.z
      ensures Value() == Add(old(Value()), rhs)
    {
      x := x + rhs.x;
      y := y + rhs.y;
      z := z + rhs.z;
    }

    method SubAssign(rhs: Vec3D<real>)
      modifies this
      ensures x == old(x) - rhs.x
      ensures y == old(y) - rhs.y
      ensures z == old(z) - rhs.z
      ensures Value() == Sub(old(Value()), rhs)
    {
      x := x - rhs.x;
      y := y - rhs.y;
      z := z - rhs.z;
    }

    method MulAssign(s: real)
      modifies this
      ensures x == old(x) * s
      ensures y == old(y) * s
      ensures z == old(z) * s
      ensures Value() == Mul(old(Value()), s)
    {
      x := Component.Product(x, s);
      y := Component.Product(y, s);
      z := Component.Product(z, s);
    }

    method DivAssign(s: real)
      requires s != 0.0
      modifies this
      ensures x == old(x) / s
      ensures y == old(y) / s
      ensures z == old(z) / s
      ensures Value() == Div(old(Value()), s)
    {
      x := x / s;
      y := y / s;
      z := z / s;
    }
  }

  // ---------------------------------------------------------------------
  // Properties

  /** Every conversion is undone by its opposite, and keeps the order
      of the components. */
  lemma ConversionsRoundTrip<T>(v: Vec3D<T>, a: seq<T>, t: (T, T, T), g: General.VecND<T>)
    ensures FromArray(ToArray(v)) == v
    ensures |a| == DIM ==> ToArray(FromArray(a)) == a
    ensures FromTuple(ToTuple(v)) == v
    ensures ToTuple(FromTuple(t)) == t
    ensures FromND(ToND(v)) == v
    ensures |g.arr| == DIM ==> ToND(FromND(g)) == g
    ensures General.Dim(ToND(v)) == DIM
    ensures ToArray(FromTuple(t)) == [t.0, t.1, t.2]
  {
  }

  /** `norm_sqr`, `dot`, `is_finite` and `has_nan` written out per field
      agree with the general vector's folds over the same components. */
  lemma QueriesAgree(a: Vec3D<real>, b: Vec3D<real>, finite: real -> bool, nan: real -> bool)
    ensures NormSqr(a) == General.NormSqr(ToND(a))
    ensures Dot(a, b) == General.Dot(ToND(a), ToND(b))
    ensures IsFinite(a, finite) == General.IsFinite(ToND(a), finite)
    ensures HasNan(a, nan) == General.HasNan(ToND(a), nan)
  {
    assert MapEach(ToND(a).arr, Component.Square) == [Component.Square(a.x), Component.Square(a.y), Component.Square(a.z)];
    assert ZipWith(ToND(a).arr, ToND(b).arr, Component.Product) == [Component.Product(a.x, b.x), Component.Product(a.y, b.y), Component.Product(a.z, b.z)];
    Component.SumOfFew(Component.Square(a.x), Component.Square(a.y), Component.Square(a.z));
    Component.SumOfFew(Component.Product(a.x, b.x), Component.Product(a.y, b.y), Component.Product(a.z, b.z));
  }

  /** `zero()` is the general zero of dimension DIM, and `is_zero` holds
      exactly of it, as it does for the general vector. */
  lemma ZeroAgrees(v: Vec3D<real>)
    ensures ToND(Zero()) == General.Zero(DIM)
    ensures IsZero(v) <==> v == Zero()
    ensures IsZero(v) == General.IsZero(ToND(v))
  {
  }

  /** Every operator acts on the components as the general vector's
      operator does on the same array. */
  lemma ArithmeticAgrees(a: Vec3D<real>, b: Vec3D<real>, s: real)
    ensures ToND(Neg(a)) == General.Neg(ToND(a))
    ensures ToND(Add(a, b)) == General.Add(ToND(a), ToND(b))
    ensures ToND(Sub(a, b)) == General.Sub(ToND(a), ToND(b))
    ensures ToND(Mul(a, s)) == General.Mul(ToND(a), s)
    ensures ToND(LeftMul(s, a)) == General.LeftMul(s, ToND(a))
    ensures s != 0.0 ==> ToND(Div(a, s)) == General.Div(ToND(a), s)
  {
  }

  /** Summing vectors here and summing their general forms agree. */
  lemma {:induction false} SumAgrees(vs: seq<Vec3D<real>>)
    ensures ToND(Sum(vs)) == General.Sum(DIM, MapEach(vs, ToND))
  {
    if vs == [] {
      ZeroAgrees(Zero());
    } else {
      var init := vs[..|vs| - 1];
      SumAgrees(init);
      ArithmeticAgrees(Sum(init), vs[|vs| - 1], 0.0);
      assert MapEach(vs, ToND)[..|vs| - 1] == MapEach(init, ToND);
    }
  }

  /** The default `norm` agrees with the general vector's. */
  lemma NormAgrees(v: Vec3D<real>, sqrt: real -> real)
    ensures Norm(v, sqrt) == General.Norm(ToND(v), sqrt)
  {
    QueriesAgree(v, v, _ => true, _ => true);
  }

  /** `distance` agrees with the general vector's. */
  lemma DistanceAgrees(a: Vec3D<real>, b: Vec3D<real>, sqrt: real -> real)
    ensures Distance(a, b, sqrt) == General.Distance(ToND(a), ToND(b), sqrt)
  {
    ArithmeticAgrees(a, b, 0.0);
    QueriesAgree(Sub(a, b), Sub(a, b), _ => true, _ => true);
  }

  /** `distance_sqr` agrees with the general vector's. */
  lemma DistanceSqrAgrees(a: Vec3D<real>, b: Vec3D<real>)
    ensures DistanceSqr(a, b) == General.DistanceSqr(ToND(a), ToND(b))
  {
    ArithmeticAgrees(a, b, 0.0);
    QueriesAgree(Sub(a, b), Sub(a, b), _ => true, _ => true);
  }

  /** The vector-space laws of the general vector hold here too:
      `+` commutes and associates, `a - b == a + (-b)`, zero is the
      identity, and the scaling laws. */
  lemma AlgebraLaws(a: Vec3D<real>, b: Vec3D<real>, c: Vec3D<real>, s: real, t: real)
    ensures Add(a, b) == Add(b, a)
    ensures Add(Add(a, b), c) == Add(a, Add(b, c))
    ensures Sub(a, b) == Add(a, Neg(b))
    ensures Add(a, Zero()) == a && Add(Zero(), a) == a && Sub(a, a) == Zero()
    ensures Mul(Mul(a, s), t) == Mul(a, s * t)
    ensures Mul(a, 1.0) == a && Mul(a, 0.0) == Zero()
    ensures LeftMul(s, a) == Mul(a, s)
    ensures s != 0.0 ==> Div(a, s) == Mul(a, 1.0 / s)
  {
    // The scaling laws carry over from the general vector through `ToND`.
    General.ScaleLaws(ToND(a), s, t);
    ArithmeticAgrees(a, b, s);
    ArithmeticAgrees(Mul(a, s), b, t);
    ArithmeticAgrees(a, b, s * t);
    assert ToND(Mul(Mul(a, s), t)) == ToND(Mul(a, s * t));
    if s != 0.0 {
      ArithmeticAgrees(a, b, 1.0 / s);
      assert ToND(Div(a, s)) == ToND(Mul(a, 1.0 / s));
    }
  }

  /** `norm_sqr` is the dot product with itself, non-negative, and zero
      exactly for the zero vector; `distance_sqr` is symmetric,
      non-negative, and zero exactly between equal vectors. */
  lemma MetricProperties(a: Vec3D<real>, b: Vec3D<real>)
    ensures NormSqr(a) == Dot(a, a)
    ensures 0.0 <= NormSqr(a)
    ensures NormSqr(a) == 0.0 <==> a == Zero()
    ensures DistanceSqr(a, b) == DistanceSqr(b, a)
    ensures 0.0 <= DistanceSqr(a, b)
    ensures DistanceSqr(a, b) == 0.0 <==> a == b
  {
    QueriesAgree(a, a, _ => true, _ => true);
    General.NormSqrIsDot(ToND(a));
    General.NormSqrZeroIff(ToND(a));
    ZeroAgrees(a);
    DistanceSqrAgrees(a, b);
    DistanceSqrAgrees(b, a);
    General.DistanceSqrSymmetric(ToND(a), ToND(b));
    General.DistanceSqrZeroIff(ToND(a), ToND(b));
    ConversionsRoundTrip(a, [], (a.x, a.y, a.z), ToND(b));
    ConversionsRoundTrip(b, [], (b.x, b.y, b.z), ToND(a));
  }
}
