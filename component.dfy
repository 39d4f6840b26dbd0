/** What the vectors need of their component type, over exact `real`s.
    The floating-point tests `is_nan` and `is_finite` and the square root
    are not fixed here: members that use them take them as parameters, and
    `IsSqrt` states the one law some lemmas assume of the square root. */
module Component {

  /** `abs` of a component. */
  function Abs(x: real): (r: real)
    ensures 0.0 <= r
    ensures r == x || r == -x
  {
    if x < 0.0 then -x else x
  }

  /** `Iterator::sum` over components: a left fold of `+` starting at zero. */
  function Sum(s: seq<real>): real
  {
    if s == [] then 0.0 else Sum(s[..|s| - 1]) + s[|s| - 1]
  }

  /** `Iterator::all`: true iff every element passes `p`. */
  function All(s: seq<real>, p: real -> bool): (r: bool)
    ensures r <==> forall i :: 0 <= i < |s| ==> p(s[i])
  {
    if s == [] then true else p(s[0]) && All(s[1..], p)
  }

  /** `Iterator::any`: true iff some element passes `p`. */
  function Any(s: seq<real>, p: real -> bool): (r: bool)
    ensures r <==> exists i :: 0 <= i < |s| && p(s[i])
  {
    if s == [] then false else p(s[0]) || Any(s[1..], p)
  }

  /** The component's `*`. Every product in the model goes through this
      function so that the solver treats it as one term: a raw `c * c`
      next to linear facts about `c` can keep it from closing those proofs. */
  function Product(a: real, b: real): real
  {
    a * b
  }

  /** The square of a component, `c * c`. */
  function Square(c: real): real
  {
    Product(c, c)
  }

  /** `sqrt` is a square root on the non-negative reals. */
  ghost predicate IsSqrt(sqrt: real -> real)
  {
    forall r :: 0.0 <= r ==> 0.0 <= sqrt(r) && Square(sqrt(r)) == r
  }

  lemma ProductPositive(a: real, b: real)
    requires 0.0 < a && 0.0 < b
    ensures 0.0 < Product(a, b)
  {
  }

  lemma ProductOfNegations(a: real, b: real)
    ensures Product(-a, -b) == Product(a, b)
  {
  }

  /** A square is non-negative, positive unless its root is zero, and the
      same for a value and its negation. */
  lemma SquareProperties(c: real)
    ensures 0.0 <= Square(c)
    ensures c != 0.0 ==> 0.0 < Square(c)
    ensures Square(-c) == Square(c)
  {
    ProductOfNegations(c, c);
    if c < 0.0 {
      ProductPositive(-c, -c);
    } else if 0.0 < c {
      ProductPositive(c, c);
    }
  }

  /** Two non-negative reals with the same square are equal. */
  lemma SquareInjective(a: real, b: real)
    requires 0.0 <= a && 0.0 <= b
    requires Square(a) == Square(b)
    ensures a == b
  {
    assert Product(a - b, a + b) == Square(a) - Square(b);
    assert Product(a - b, a + b) == 0.0;
    if a + b != 0.0 {
      assert a - b == 0.0;
    }
  }

  /** The square root of a square is the absolute value. */
  lemma SqrtOfSquare(sqrt: real -> real, x: real)
    requires IsSqrt(sqrt)
    ensures sqrt(Square(x)) == Abs(x)
  {
    SquareProperties(x);
    var y := sqrt(Square(x));
    assert 0.0 <= y && Square(y) == Square(x);
    assert Square(Abs(x)) == Square(x);
    SquareInjective(y, Abs(x));
  }

  /** A sum of non-negative terms is non-negative. */
  lemma {:induction false} SumNonneg(s: seq<real>)
    requires forall i :: 0 <= i < |s| ==> 0.0 <= s[i]
    ensures 0.0 <= Sum(s)
  {
    if s != [] {
      SumNonneg(s[..|s| - 1]);
    }
  }

  /** A sum of non-negative terms is zero iff every term is zero. */
  lemma {:induction false} SumNonnegZero(s: seq<real>)
    requires forall i :: 0 <= i < |s| ==> 0.0 <= s[i]
    ensures Sum(s) == 0.0 <==> forall i :: 0 <= i < |s| ==> s[i] == 0.0
  {
    if s != [] {
      var init := s[..|s| - 1];
      SumNonnegZero(init);
      SumNonneg(init);
      assert forall i :: 0 <= i < |init| ==> init[i] == s[i];
      assert (forall i :: 0 <= i < |s| ==> s[i] == 0.0)
         <==> (forall i :: 0 <= i < |init| ==> init[i] == 0.0) && s[|s| - 1] == 0.0;
    }
  }

  /** Sums of one, two and three terms, written out. */
  lemma SumOfFew(p: real, q: real, t: real)
    ensures Sum([p]) == p
    ensures Sum([p, q]) == p + q
    ensures Sum([p, q, t]) == p + q + t
  {
    assert [p, q][..1] == [p];
    assert [p, q, t][..2] == [p, q];
  }

  /** The sum of all zeros is zero. */
  lemma {:induction false} SumOfZeros(s: seq<real>)
    requires forall i :: 0 <= i < |s| ==> s[i] == 0.0
    ensures Sum(s) == 0.0
  {
    if s != [] {
      SumOfZeros(s[..|s| - 1]);
    }
  }
}
