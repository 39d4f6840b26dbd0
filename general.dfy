/** `VecND<T, N>`: a general vector wrapping exactly one array of N
    components. N is the length of `arr`; every operation is a
    component-wise map, zip or fold over it. */
module General {
  import Component
  import opened Array
  import Vector

  datatype VecND<T> = VecND(arr: seq<T>)

  /** `DIM`: N, the number of stored components. */
  function Dim<T>(v: VecND<T>): nat
  {
    |v.arr|
  }

  /** `From<[T; N]> for VecND<T, N>`. */
  function FromArray<T>(arr: seq<T>): VecND<T>
  {
    VecND(arr)
  }

  /** `From<VecND<T, N>> for [T; N]`, also what `as_ref` borrows. */
  function ToArray<T>(v: VecND<T>): seq<T>
  {
    v.arr
  }

  // ---------------------------------------------------------------------
  // The `Vector` implementation

  function NormSqr(v: VecND<real>): real
  {
    Component.Sum(MapEach(v.arr, Component.Square))
  }

  function Dot(a: VecND<real>, b: VecND<real>): real
  {
    Component.Sum(ZipWith(a.arr, b.arr, Component.Product))
  }

  function IsFinite(v: VecND<real>, finite: real -> bool): (r: bool)
    ensures r <==> forall i :: 0 <= i < |v.arr| ==> finite(v.arr[i])
  {
    Component.All(v.arr, finite)
  }

  function HasNan(v: VecND<real>, nan: real -> bool): (r: bool)
    ensures r <==> exists i :: 0 <= i < |v.arr| && nan(v.arr[i])
  {
    Component.Any(v.arr, nan)
  }

  /** The default `norm`. */
  function Norm(v: VecND<real>, sqrt: real -> real): real
  {
    Vector.Norm(NormSqr, sqrt, v)
  }

  /** The default `distance`. */
  function Distance(a: VecND<real>, b: VecND<real>, sqrt: real -> real): real
  {
    Vector.Distance(v => Norm(v, sqrt), Sub, a, b)
  }

  /** The default `distance_sqr`. */
  function DistanceSqr(a: VecND<real>, b: VecND<real>): real
  {
    Vector.DistanceSqr(NormSqr, Sub, a, b)
  }

  // ---------------------------------------------------------------------
  // `Zero`, `Neg` and the arithmetic operators

  function Zero(n: nat): (z: VecND<real>)
    ensures |z.arr| == n
    ensures forall i :: 0 <= i < n ==> z.arr[i] == 0.0
  {
    VecND(seq(n, _ => 0.0))
  }

  function IsZero(v: VecND<real>): (r: bool)
    ensures r <==> v == Zero(|v.arr|)
  {
    var r := Component.All(v.arr, (c: real) => c == 0.0);
    assert r ==> v.arr == Zero(|v.arr|).arr;
    r
  }

  function Neg(v: VecND<real>): (r: VecND<real>)
    ensures |r.arr| == |v.arr|
    ensures forall i :: 0 <= i < |v.arr| ==> r.arr[i] == -v.arr[i]
  {
    VecND(MapEach(v.arr, (c: real) => -c))
  }

  function Add(a: VecND<real>, b: VecND<real>): (r: VecND<real>)
    ensures |r.arr| == if |a.arr| <= |b.arr| then |a.arr| else |b.arr|
    ensures forall i :: 0 <= i < |r.arr| ==> r.arr[i] == a.arr[i] + b.arr[i]
  {
    VecND(ZipWith(a.arr, b.arr, (x: real, y: real) => x + y))
  }

  function Sub(a: VecND<real>, b: VecND<real>): (r: VecND<real>)
    ensures |r.arr| == if |a.arr| <= |b.arr| then |a.arr| else |b.arr|
    ensures forall i :: 0 <= i < |r.arr| ==> r.arr[i] == a.arr[i] - b.arr[i]
  {
    VecND(ZipWith(a.arr, b.arr, (x: real, y: real) => x - y))
  }

  /** `vector * scalar`. */
  function Mul(v: VecND<real>, s: real): (r: VecND<real>)
    ensures |r.arr| == |v.arr|
    ensures forall i :: 0 <= i < |v.arr| ==> r.arr[i] == v.arr[i] * s
  {
    VecND(MapEach(v.arr, (c: real) => Component.Product(c, s)))
  }

  /** `vector / scalar`. */
  function Div(v: VecND<real>, s: real): (r: VecND<real>)
    requires s != 0.0
    ensures |r.arr| == |v.arr|
    ensures forall i :: 0 <= i < |v.arr| ==> r.arr[i] == v.arr[i] / s
  {
    VecND(MapEach(v.arr, (c: real) => c / s))
  }

  /** `scalar * vector`. */
  function LeftMul(s: real, v: VecND<real>): (r: VecND<real>)
    ensures |r.arr| == |v.arr|
    ensures forall i :: 0 <= i < |v.arr| ==> r.arr[i] == s * v.arr[i]
  {
    VecND(MapEach(v.arr, (c: real) => Component.Product(s, c)))
  }

  /** `Sum`: a left fold of `+` over the vectors, starting at `zero()`. */
  function Sum(n: nat, vs: seq<VecND<real>>): VecND<real>
  {
    if vs == [] then Zero(n) else Add(Sum(n, vs[..|vs| - 1]), vs[|vs| - 1])
  }

  /** Component i of every vector in `vs`, in order. */
  function Column(vs: seq<VecND<real>>, i: nat): (c: seq<real>)
    requires forall k :: 0 <= k < |vs| ==> i < |vs[k].arr|
    ensures |c| == |vs|
    ensures forall k :: 0 <= k < |vs| ==> c[k] == vs[k].arr[i]
  {
    seq(|vs|, k requires 0 <= k < |vs| => vs[k].arr[i])
  }

  // ---------------------------------------------------------------------
  // `+=`, `-=`, `*=` and `/=`: a mutable `VecND` place, updated in place

  class VecNDVar {
    var arr: array<real>

    function Value(): VecND<real>
      reads this, arr
    {
      VecND(arr[..])
    }

    constructor (v: VecND<real>)
      ensures Value() == v
      ensures fresh(arr)
    {
      arr := new real[|v.arr|](i requires 0 <= i < |v.arr| => v.arr[i]);
    }

    method AddAssign(rhs: VecND<real>)
      requires |rhs.arr| == arr.Length
      modifies arr
      ensures Value() == Add(old(Value()), rhs)
    {
      for i := 0 to arr.Length
        invariant forall j :: 0 <= j < i ==> arr[j] == old(arr[j]) + rhs.arr[j]
        invariant forall j :: i <= j < arr.Length ==> arr[j] == old(arr[j])
      {
        arr[i] := arr[i] + rhs.arr[i];
      }
    }

    method SubAssign(rhs: VecND<real>)
      requires |rhs.arr| == arr.Length
      modifies arr
      ensures Value() == Sub(old(Value()), rhs)
    {
      for i := 0 to arr.Length
        invariant forall j :: 0 <= j < i ==> arr[j] == old(arr[j]) - rhs.arr[j]
        invariant forall j :: i <= j < arr.Length ==> arr[j] == old(arr[j])
      {
        arr[i] := arr[i] - rhs.arr[i];
      }
    }

    method MulAssign(s: real)
      modifies arr
      ensures Value() == Mul(old(Value()), s)
    {
      for i := 0 to arr.Length
        invariant forall j :: 0 <= j < i ==> arr[j] == old(arr[j]) * s
        invariant forall j :: i <= j < arr.Length ==> arr[j] == old(arr[j])
      {
        arr[i] := Component.Product(arr[i], s);
      }
      forall j | 0 <= j < arr.Length ensures arr[..][j] == Mul(old(Value()), s).arr[j] {
      }
    }

    method DivAssign(s: real)
      requires s != 0.0
      modifies arr
      ensures Value() == Div(old(Value()), s)
    {
      for i := 0 to arr.Length
        invariant forall j :: 0 <= j < i ==> arr[j] == old(arr[j]) / s
        invariant forall j :: i <= j < arr.Length ==> arr[j] == old(arr[j])
      {
        arr[i] := arr[i] / s;
      }
      forall j | 0 <= j < arr.Length ensures arr[..][j] == Div(old(Value()), s).arr[j] {
      }
    }
  }

  // ---------------------------------------------------------------------
  // Properties

  /** Conversion from an array and back is the identity, both ways round. */
  lemma ArrayRoundTrip<T>(arr: seq<T>, v: VecND<T>)
    ensures ToArray(FromArray(arr)) == arr
    ensures FromArray(ToArray(v)) == v
    ensures Dim(FromArray(arr)) == |arr|
  {
  }

  /** `norm_sqr(v)` is the dot product of `v` with itself. */
  lemma NormSqrIsDot(v: VecND<real>)
    ensures NormSqr(v) == Dot(v, v)
  {
    assert MapEach(v.arr, Component.Square) == ZipWith(v.arr, v.arr, Component.Product);
  }

  /** The dot product is symmetric. */
  lemma DotSymmetric(a: VecND<real>, b: VecND<real>)
    ensures Dot(a, b) == Dot(b, a)
  {
    assert ZipWith(a.arr, b.arr, Component.Product) == ZipWith(b.arr, a.arr, Component.Product);
  }

  /** `norm_sqr` is non-negative, and zero exactly for the zero vector. */
  lemma NormSqrZeroIff(v: VecND<real>)
    ensures 0.0 <= NormSqr(v)
    ensures NormSqr(v) == 0.0 <==> IsZero(v)
  {
    var sq := MapEach(v.arr, Component.Square);
    forall i | 0 <= i < |sq| ensures 0.0 <= sq[i] && (v.arr[i] != 0.0 ==> sq[i] != 0.0) {
      Component.SquareProperties(v.arr[i]);
    }
    Component.SumNonneg(sq);
    Component.SumNonnegZero(sq);
    if IsZero(v) {
      assert forall i :: 0 <= i < |sq| ==> sq[i] == 0.0;
    }
    if NormSqr(v) == 0.0 {
      assert v.arr == Zero(|v.arr|).arr;
    }
  }

  /** `distance_sqr` is symmetric. */
  lemma DistanceSqrSymmetric(a: VecND<real>, b: VecND<real>)
    ensures DistanceSqr(a, b) == DistanceSqr(b, a)
  {
    var d, e := Sub(a, b), Sub(b, a);
    forall i | 0 <= i < |d.arr| ensures Component.Square(d.arr[i]) == Component.Square(e.arr[i]) {
      assert e.arr[i] == -d.arr[i];
      Component.SquareProperties(d.arr[i]);
    }
    assert MapEach(d.arr, Component.Square) == MapEach(e.arr, Component.Square);
  }

  /** Two vectors of one dimension are at squared distance zero exactly
      when they are equal. */
  lemma DistanceSqrZeroIff(a: VecND<real>, b: VecND<real>)
    requires |a.arr| == |b.arr|
    ensures 0.0 <= DistanceSqr(a, b)
    ensures DistanceSqr(a, b) == 0.0 <==> a == b
  {
    var d := Sub(a, b);
    NormSqrZeroIff(d);
    if DistanceSqr(a, b) == 0.0 {
      assert forall i :: 0 <= i < |a.arr| ==> d.arr[i] == 0.0;
      assert a.arr == b.arr;
    }
    if a == b {
      assert d.arr == Zero(|d.arr|).arr;
    }
  }

  /** The default norm of the zero vector is zero, and every norm is
      non-negative and squares to `norm_sqr`. */
  lemma NormProperties(n: nat, v: VecND<real>, sqrt: real -> real)
    requires Component.IsSqrt(sqrt)
    ensures Norm(Zero(n), sqrt) == 0.0
    ensures 0.0 <= Norm(v, sqrt) && Component.Square(Norm(v, sqrt)) == NormSqr(v)
  {
    NormSqrZeroIff(Zero(n));
    assert IsZero(Zero(n));
    Vector.NormIsRootOfNormSqr(NormSqr, sqrt, Zero(n));
    NormSqrZeroIff(v);
    Vector.NormIsRootOfNormSqr(NormSqr, sqrt, v);
  }

  /** `distance` is symmetric, non-negative, and zero exactly between
      equal vectors. */
  lemma DistanceProperties(a: VecND<real>, b: VecND<real>, sqrt: real -> real)
    requires Component.IsSqrt(sqrt)
    requires |a.arr| == |b.arr|
    ensures Distance(a, b, sqrt) == Distance(b, a, sqrt)
    ensures 0.0 <= Distance(a, b, sqrt)
    ensures Distance(a, b, sqrt) == 0.0 <==> a == b
  {
    DistanceSqrSymmetric(a, b);
    DistanceSqrZeroIff(a, b);
    Vector.NormIsRootOfNormSqr(NormSqr, sqrt, Sub(a, b));
  }

  /** A component that is infinite but not NaN makes a vector neither
      finite nor NaN-carrying: the two tests are not complements. */
  lemma FiniteAndNanNotComplements(v: VecND<real>, finite: real -> bool, nan: real -> bool, k: nat)
    requires k < |v.arr| && !finite(v.arr[k])
    requires forall i :: 0 <= i < |v.arr| ==> !nan(v.arr[i])
    ensures !IsFinite(v, finite) && !HasNan(v, nan)
  {
  }

  /** Vector addition commutes. */
  lemma AddCommutes(a: VecND<real>, b: VecND<real>)
    ensures Add(a, b) == Add(b, a)
  {
  }

  /** Vector addition associates. */
  lemma AddAssociates(a: VecND<real>, b: VecND<real>, c: VecND<real>)
    ensures Add(Add(a, b), c) == Add(a, Add(b, c))
  {
  }

  /** Subtraction is addition of the negation. */
  lemma SubIsAddNeg(a: VecND<real>, b: VecND<real>)
    ensures Sub(a, b) == Add(a, Neg(b))
  {
  }

  /** Zero is the identity of addition, and `a - a` is zero. */
  lemma ZeroLaws(a: VecND<real>)
    ensures Add(a, Zero(|a.arr|)) == a
    ensures Add(Zero(|a.arr|), a) == a
    ensures Sub(a, a) == Zero(|a.arr|)
  {
  }

  /** Scaling laws: `(a * s) * t == a * (s * t)`, `a * 1 == a`,
      `a * 0 == zero`, `s * a == a * s` and `a / s == a * (1 / s)`. */
  lemma ScaleLaws(a: VecND<real>, s: real, t: real)
    ensures Mul(Mul(a, s), t) == Mul(a, s * t)
    ensures Mul(a, 1.0) == a
    ensures Mul(a, 0.0) == Zero(|a.arr|)
    ensures LeftMul(s, a) == Mul(a, s)
    ensures s != 0.0 ==> Div(a, s) == Mul(a, 1.0 / s)
  {
    forall i | 0 <= i < |a.arr| ensures Mul(Mul(a, s), t).arr[i] == Mul(a, s * t).arr[i] {
      assert (a.arr[i] * s) * t == a.arr[i] * (s * t);
    }
    assert Mul(Mul(a, s), t).arr == Mul(a, s * t).arr;
    assert Mul(a, 1.0).arr == a.arr;
    assert Mul(a, 0.0).arr == Zero(|a.arr|).arr;
    assert LeftMul(s, a).arr == Mul(a, s).arr;
    if s != 0.0 {
      forall i | 0 <= i < |a.arr| ensures Div(a, s).arr[i] == Mul(a, 1.0 / s).arr[i] {
        assert a.arr[i] / s == a.arr[i] * (1.0 / s);
      }
      assert Div(a, s).arr == Mul(a, 1.0 / s).arr;
    }
  }

  /** Summing N-dimensional vectors gives an N-dimensional vector whose
      component i is the left-fold sum of the vectors' components i; in
      particular the empty sum is the zero vector. */
  lemma {:induction false} SumByColumns(n: nat, vs: seq<VecND<real>>)
    requires forall k :: 0 <= k < |vs| ==> |vs[k].arr| == n
    ensures |Sum(n, vs).arr| == n
    ensures forall i :: 0 <= i < n ==> Sum(n, vs).arr[i] == Component.Sum(Column(vs, i))
  {
    if vs != [] {
      var init := vs[..|vs| - 1];
      SumByColumns(n, init);
      forall i | 0 <= i < n
        ensures Sum(n, vs).arr[i] == Component.Sum(Column(vs, i))
      {
        assert Column(vs, i)[..|vs| - 1] == Column(init, i);
      }
    }
  }

  /** A sum of zero vectors, any number of them, is the zero vector. */
  lemma SumOfZeroVectors(n: nat, vs: seq<VecND<real>>)
    requires forall k :: 0 <= k < |vs| ==> vs[k] == Zero(n)
    ensures Sum(n, vs) == Zero(n)
  {
    SumByColumns(n, vs);
    forall i | 0 <= i < n ensures Sum(n, vs).arr[i] == 0.0 {
      Component.SumOfZeros(Column(vs, i));
    }
    assert Sum(n, vs).arr == Zero(n).arr;
  }

  /** `DIM` is the N of `VecND<T, N>`, fixed by the type: `zero()` of
      dimension n has it, and every operator and `Sum` return vectors of
      their operands' dimension. */
  lemma DimensionPreserved(n: nat, a: VecND<real>, b: VecND<real>, s: real, vs: seq<VecND<real>>)
    ensures Dim(Zero(n)) == n
    ensures Dim(Neg(a)) == Dim(a)
    ensures Dim(Mul(a, s)) == Dim(a) && Dim(LeftMul(s, a)) == Dim(a)
    ensures s != 0.0 ==> Dim(Div(a, s)) == Dim(a)
    ensures Dim(a) == Dim(b) ==> Dim(Add(a, b)) == Dim(a) && Dim(Sub(a, b)) == Dim(a)
    ensures (forall k :: 0 <= k < |vs| ==> Dim(vs[k]) == n) ==> Dim(Sum(n, vs)) == n
  {
    if forall k :: 0 <= k < |vs| ==> Dim(vs[k]) == n {
      SumByColumns(n, vs);
    }
  }
}
