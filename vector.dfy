/** The default methods of the `Vector` contract, defined once for every
    vector type `V`. A vector type supplies its own `norm_sqr` and
    subtraction (and, where it overrides the default, its own `norm`). */
module Vector {
  import Component

  /** Default `norm`: the square root of `norm_sqr`. */
  function Norm<V>(normSqr: V -> real, sqrt: real -> real, v: V): real
  {
    sqrt(normSqr(v))
  }

  /** Default `distance`: the norm of the difference. */
  function Distance<V>(norm: V -> real, sub: (V, V) -> V, a: V, b: V): real
  {
    norm(sub(a, b))
  }

  /** Default `distance_sqr`: `norm_sqr` of the difference. */
  function DistanceSqr<V>(normSqr: V -> real, sub: (V, V) -> V, a: V, b: V): real
  {
    normSqr(sub(a, b))
  }

  /** With a true square root and a non-negative `norm_sqr`, the default
      norm is the non-negative number whose square is `norm_sqr`, and it is
      zero exactly when `norm_sqr` is. */
  lemma NormIsRootOfNormSqr<V>(normSqr: V -> real, sqrt: real -> real, v: V)
    requires Component.IsSqrt(sqrt)
    requires 0.0 <= normSqr(v)
    ensures 0.0 <= Norm(normSqr, sqrt, v)
    ensures Component.Square(Norm(normSqr, sqrt, v)) == normSqr(v)
    ensures Norm(normSqr, sqrt, v) == 0.0 <==> normSqr(v) == 0.0
  {
    var n := Norm(normSqr, sqrt, v);
    assert 0.0 <= n && Component.Square(n) == normSqr(v);
    if normSqr(v) == 0.0 {
      Component.SquareInjective(n, 0.0);
    }
  }
}
