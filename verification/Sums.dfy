/** Finite sums of reals over half-open index ranges: the lemma library that every
    tensor rewrite of the project is reduced to.  The index function is always named
    (no two spellings of one summand), so that equal summands give equal sums. */
module Sums {

  function Sum(lo: int, hi: int, f: int -> real): real
    decreases hi - lo
  {
    if lo >= hi then 0.0 else f(lo) + Sum(lo + 1, hi, f)
  }

  /** The summand that is `c` times another: congruence (c = 1), sign change (c = -1)
      and vanishing (c = 0) in one. */
  lemma {:induction false} SumScale(lo: int, hi: int, c: real, f: int -> real, g: int -> real)
    requires forall k | lo <= k < hi :: f(k) == c * g(k)
    ensures Sum(lo, hi, f) == c * Sum(lo, hi, g)
    decreases hi - lo
  {
    if lo < hi {
      SumScale(lo + 1, hi, c, f, g);
    }
  }

  lemma {:induction false} SumLinear(lo: int, hi: int, c: real, f: int -> real, d: real, g: int -> real, h: int -> real)
    requires forall k | lo <= k < hi :: h(k) == c * f(k) + d * g(k)
    ensures Sum(lo, hi, h) == c * Sum(lo, hi, f) + d * Sum(lo, hi, g)
    decreases hi - lo
  {
    if lo < hi {
      SumLinear(lo + 1, hi, c, f, d, g, h);
    }
  }

  lemma {:induction false} SumLast(lo: int, hi: int, f: int -> real)
    requires lo <= hi
    ensures Sum(lo, hi + 1, f) == Sum(lo, hi, f) + f(hi)
    decreases hi - lo
  {
    if lo < hi {
      SumLast(lo + 1, hi, f);
    }
  }

  // ---- double sums ------------------------------------------------------------------

  function At(f: (int, int) -> real, i: int): int -> real { j => f(i, j) }

  function Row(lo: int, hi: int, f: (int, int) -> real): int -> real { i => Sum(lo, hi, At(f, i)) }

  function Flip(f: (int, int) -> real): (int, int) -> real { (i, j) => f(j, i) }

  function Sum2(lo: int, hi: int, lo2: int, hi2: int, f: (int, int) -> real): real {
    Sum(lo, hi, Row(lo2, hi2, f))
  }

  lemma Sum2Linear(lo: int, hi: int, lo2: int, hi2: int,
                   c: real, f: (int, int) -> real, d: real, g: (int, int) -> real, h: (int, int) -> real)
    requires forall i, j | lo <= i < hi && lo2 <= j < hi2 :: h(i, j) == c * f(i, j) + d * g(i, j)
    ensures Sum2(lo, hi, lo2, hi2, h) == c * Sum2(lo, hi, lo2, hi2, f) + d * Sum2(lo, hi, lo2, hi2, g)
  {
    forall i | lo <= i < hi
      ensures Row(lo2, hi2, h)(i) == c * Row(lo2, hi2, f)(i) + d * Row(lo2, hi2, g)(i)
    {
      SumLinear(lo2, hi2, c, At(f, i), d, At(g, i), At(h, i));
    }
    SumLinear(lo, hi, c, Row(lo2, hi2, f), d, Row(lo2, hi2, g), Row(lo2, hi2, h));
  }

  lemma Sum2Scale(lo: int, hi: int, lo2: int, hi2: int, c: real, f: (int, int) -> real, g: (int, int) -> real)
    requires forall i, j | lo <= i < hi && lo2 <= j < hi2 :: f(i, j) == c * g(i, j)
    ensures Sum2(lo, hi, lo2, hi2, f) == c * Sum2(lo, hi, lo2, hi2, g)
  {
    Sum2Linear(lo, hi, lo2, hi2, c, g, 0.0, g, f);
  }

  /** Exchanging the order of summation. */
  lemma {:induction false} Sum2Swap(lo: int, hi: int, lo2: int, hi2: int, f: (int, int) -> real)
    ensures Sum2(lo, hi, lo2, hi2, f) == Sum2(lo2, hi2, lo, hi, Flip(f))
    decreases hi - lo
  {
    var columns := Row(lo, hi, Flip(f));
    if lo < hi {
      Sum2Swap(lo + 1, hi, lo2, hi2, f);
      var rest := Row(lo + 1, hi, Flip(f));
      forall j | lo2 <= j < hi2
        ensures columns(j) == 1.0 * At(f, lo)(j) + 1.0 * rest(j)
      {
      }
      SumLinear(lo2, hi2, 1.0, At(f, lo), 1.0, rest, columns);
    } else {
      SumScale(lo2, hi2, 0.0, columns, columns);
    }
  }

  // ---- triple sums over a cube --------------------------------------------------------

  type Triple = (int, int, int) -> real

  function Line(f: Triple, i: int, j: int): int -> real { k => f(i, j, k) }

  function Inner(lo: int, hi: int, f: Triple): (int, int) -> real { (i, j) => Sum(lo, hi, Line(f, i, j)) }

  function Sum3(lo: int, hi: int, f: Triple): real { Sum2(lo, hi, lo, hi, Inner(lo, hi, f)) }

  function Swap01(f: Triple): Triple { (i, j, k) => f(j, i, k) }
  function Swap12(f: Triple): Triple { (i, j, k) => f(i, k, j) }
  function Swap02(f: Triple): Triple { (i, j, k) => f(k, j, i) }

  lemma Sum3Linear(lo: int, hi: int, c: real, f: Triple, d: real, g: Triple, h: Triple)
    requires forall i, j, k | lo <= i < hi && lo <= j < hi &&
             lo <= k < hi :: h(i, j, k) == c * f(i, j, k) + d * g(i, j, k)
    ensures Sum3(lo, hi, h) == c * Sum3(lo, hi, f) + d * Sum3(lo, hi, g)
  {
    forall i, j | lo <= i < hi && lo <= j < hi
      ensures Inner(lo, hi, h)(i, j) == c * Inner(lo, hi, f)(i, j) + d * Inner(lo, hi, g)(i, j)
    {
      SumLinear(lo, hi, c, Line(f, i, j), d, Line(g, i, j), Line(h, i, j));
    }
    Sum2Linear(lo, hi, lo, hi, c, Inner(lo, hi, f), d, Inner(lo, hi, g), Inner(lo, hi, h));
  }

  lemma Sum3Scale(lo: int, hi: int, c: real, f: Triple, g: Triple)
    requires forall i, j, k | lo <= i < hi && lo <= j < hi && lo <= k < hi :: f(i, j, k) == c * g(i, j, k)
    ensures Sum3(lo, hi, f) == c * Sum3(lo, hi, g)
  {
    Sum3Linear(lo, hi, c, g, 0.0, g, f);
  }

  lemma Sum3Swap01(lo: int, hi: int, f: Triple)
    ensures Sum3(lo, hi, Swap01(f)) == Sum3(lo, hi, f)
  {
    var inner := Inner(lo, hi, f);
    Sum2Swap(lo, hi, lo, hi, inner);
    forall i, j | lo <= i < hi && lo <= j < hi
      ensures Inner(lo, hi, Swap01(f))(i, j) == 1.0 * Flip(inner)(i, j)
    {
      SumScale(lo, hi, 1.0, Line(Swap01(f), i, j), Line(f, j, i));
    }
    Sum2Scale(lo, hi, lo, hi, 1.0, Inner(lo, hi, Swap01(f)), Flip(inner));
  }

  lemma Sum3Swap12(lo: int, hi: int, f: Triple)
    ensures Sum3(lo, hi, Swap12(f)) == Sum3(lo, hi, f)
  {
    var a, b := Row(lo, hi, Inner(lo, hi, Swap12(f))), Row(lo, hi, Inner(lo, hi, f));
    forall i | lo <= i < hi
      ensures a(i) == 1.0 * b(i)
    {
      PlaneIs(lo, hi, f, i);
      PlaneIs(lo, hi, Swap12(f), i);
      Sum2Swap(lo, hi, lo, hi, Plane(f, i));
      Sum2Scale(lo, hi, lo, hi, 1.0, Plane(Swap12(f), i), Flip(Plane(f, i)));
    }
    SumScale(lo, hi, 1.0, a, b);
  }

  lemma Sum3Swap02(lo: int, hi: int, f: Triple)
    ensures Sum3(lo, hi, Swap02(f)) == Sum3(lo, hi, f)
  {
    Sum3Swap12(lo, hi, f);
    Sum3Swap01(lo, hi, Swap12(f));
    Sum3Swap12(lo, hi, Swap01(Swap12(f)));
    Sum3Scale(lo, hi, 1.0, Swap02(f), Swap12(Swap01(Swap12(f))));
  }

  /** The (j, k) plane of a triple-indexed summand at fixed i. */
  function Plane(f: Triple, i: int): (int, int) -> real { (j, k) => f(i, j, k) }

  lemma PlaneIs(lo: int, hi: int, f: Triple, i: int)
    ensures Row(lo, hi, Inner(lo, hi, f))(i) == Sum2(lo, hi, lo, hi, Plane(f, i))
  {
    forall j | lo <= j < hi
      ensures At(Inner(lo, hi, f), i)(j) == 1.0 * Row(lo, hi, Plane(f, i))(j)
    {
      SumScale(lo, hi, 1.0, Line(f, i, j), At(Plane(f, i), j));
    }
    SumScale(lo, hi, 1.0, At(Inner(lo, hi, f), i), Row(lo, hi, Plane(f, i)));
  }

  // ---- ordered pairs and triples ------------------------------------------------------

  predicate SymmetricPair(f: (int, int) -> real, i: int, j: int) { f(i, j) == f(j, i) && f(i, i) == 0.0 }

  /** Sum over lo <= j < k < hi, j outermost: the order in which a nested loop visits the pairs. */
  function OrderedPairs(lo: int, hi: int, f: (int, int) -> real): real
    decreases hi - lo
  {
    if lo >= hi then 0.0 else Sum(lo + 1, hi, At(f, lo)) + OrderedPairs(lo + 1, hi, f)
  }

  /** A square splits into its corner, the rest of its first row, the rest of its first column, and a smaller square. */
  lemma PeelSquare(lo: int, hi: int, f: (int, int) -> real)
    requires lo < hi
    ensures Sum2(lo, hi, lo, hi, f)
         == f(lo, lo) + Sum(lo + 1, hi, At(f, lo)) + Sum(lo + 1, hi, At(Flip(f), lo)) + Sum2(lo + 1, hi, lo + 1, hi, f)
  {
    SumLinear(lo + 1, hi, 1.0, At(Flip(f), lo), 1.0, Row(lo + 1, hi, f), Row(lo, hi, f));
  }

  lemma {:induction false} SymmetricPairsTwice(lo: int, hi: int, f: (int, int) -> real)
    requires forall i, j | lo <= i < hi && lo <= j < hi :: SymmetricPair(f, i, j)
    ensures Sum2(lo, hi, lo, hi, f) == 2.0 * OrderedPairs(lo, hi, f)
    decreases hi - lo
  {
    if lo < hi {
      PeelSquare(lo, hi, f);
      assert SymmetricPair(f, lo, lo);
      forall j | lo < j < hi
        ensures At(Flip(f), lo)(j) == 1.0 * At(f, lo)(j)
      {
        assert SymmetricPair(f, lo, j);
      }
      SumScale(lo + 1, hi, 1.0, At(Flip(f), lo), At(f, lo));
      SymmetricPairsTwice(lo + 1, hi, f);
    }
  }

  /** Fully symmetric, and zero whenever two of the three indices coincide. */
  predicate SymmetricTriple(f: Triple, i: int, j: int, k: int) {
    f(i, j, k) == f(j, i, k) == f(i, k, j) && f(i, i, k) == 0.0
  }

  function OrderedTriples(lo: int, hi: int, f: Triple): real
    decreases hi - lo
  {
    if lo >= hi then 0.0 else OrderedPairs(lo + 1, hi, Plane(f, lo)) + OrderedTriples(lo + 1, hi, f)
  }

  /** The six-fold count: a symmetric summand with vanishing diagonals takes six times its value on i < j < k. */
  lemma {:induction false} SymmetricTriplesSixfold(lo: int, hi: int, f: Triple)
    requires forall i, j, k | lo <= i < hi && lo <= j < hi && lo <= k < hi :: SymmetricTriple(f, i, j, k)
    ensures Sum3(lo, hi, f) == 6.0 * OrderedTriples(lo, hi, f)
    decreases hi - lo
  {
    if lo < hi {
      var outer := Row(lo, hi, Inner(lo, hi, f));
      FirstPlane(lo, hi, f);
      // i > lo
      var first := Row(lo + 1, hi, Plane(f, lo));
      var rest := Row(lo + 1, hi, Inner(lo + 1, hi, f));
      forall i | lo < i < hi
        ensures outer(i) == 2.0 * first(i) + 1.0 * rest(i)
      {
        LaterPlane(lo, hi, f, i);
      }
      SumLinear(lo + 1, hi, 2.0, first, 1.0, rest, outer);
      SymmetricTriplesSixfold(lo + 1, hi, f);
    }
  }

  lemma FirstPlane(lo: int, hi: int, f: Triple)
    requires lo < hi
    requires forall i, j, k | lo <= i < hi && lo <= j < hi && lo <= k < hi :: SymmetricTriple(f, i, j, k)
    ensures Row(lo, hi, Inner(lo, hi, f))(lo) == Sum2(lo + 1, hi, lo + 1, hi, Plane(f, lo))
    ensures Sum2(lo + 1, hi, lo + 1, hi, Plane(f, lo)) == 2.0 * OrderedPairs(lo + 1, hi, Plane(f, lo))
  {
    var p := Plane(f, lo);
    PlaneIs(lo, hi, f, lo);
    PeelSquare(lo, hi, p);
    assert SymmetricTriple(f, lo, lo, lo);
    forall k | lo < k < hi
      ensures At(p, lo)(k) == 0.0 * At(p, lo)(k) && At(Flip(p), lo)(k) == 0.0 * At(p, lo)(k)
    {
      assert SymmetricTriple(f, lo, lo, k) && SymmetricTriple(f, lo, k, lo);
    }
    SumScale(lo + 1, hi, 0.0, At(p, lo), At(p, lo));
    SumScale(lo + 1, hi, 0.0, At(Flip(p), lo), At(p, lo));
    forall j, k | lo < j < hi && lo < k < hi
      ensures SymmetricPair(p, j, k)
    {
      assert SymmetricTriple(f, lo, j, k) && SymmetricTriple(f, lo, j, j) && SymmetricTriple(f, j, lo, j) &&
             SymmetricTriple(f, j, j, lo);
    }
    SymmetricPairsTwice(lo + 1, hi, p);
  }

  lemma LaterPlane(lo: int, hi: int, f: Triple, i: int)
    requires lo < i < hi
    requires forall i, j, k | lo <= i < hi && lo <= j < hi && lo <= k < hi :: SymmetricTriple(f, i, j, k)
    ensures Row(lo, hi, Inner(lo, hi, f))(i)
         == 2.0 * Row(lo + 1, hi, Plane(f, lo))(i) + Row(lo + 1, hi, Inner(lo + 1, hi, f))(i)
  {
    PlaneIs(lo, hi, f, i);
    PlaneIs(lo + 1, hi, f, i);
    PeelSquare(lo, hi, Plane(f, i));
    assert SymmetricTriple(f, lo, lo, i) && SymmetricTriple(f, lo, i, lo) && SymmetricTriple(f, i, lo, lo);
    forall k | lo < k < hi
      ensures At(Plane(f, i), lo)(k) == 1.0 * At(Plane(f, lo), i)(k)
      ensures At(Flip(Plane(f, i)), lo)(k) == 1.0 * At(Plane(f, lo), i)(k)
    {
      assert SymmetricTriple(f, lo, i, k) && SymmetricTriple(f, i, k, lo) && SymmetricTriple(f, i, lo, k);
    }
    SumScale(lo + 1, hi, 1.0, At(Plane(f, i), lo), At(Plane(f, lo), i));
    SumScale(lo + 1, hi, 1.0, At(Flip(Plane(f, i)), lo), At(Plane(f, lo), i));
  }

  // ---- sums that are not positive -------------------------------------------------------------

  lemma {:induction false} SumNotPositive(lo: int, hi: int, f: int -> real)
    requires forall k | lo <= k < hi :: f(k) <= 0.0
    ensures Sum(lo, hi, f) <= 0.0
    decreases hi - lo
  {
    if lo < hi {
      SumNotPositive(lo + 1, hi, f);
    }
  }

  lemma Sum2NotPositive(n: int, f: (int, int) -> real)
    requires forall i, j | 0 <= i < n && 0 <= j < n :: f(i, j) <= 0.0
    ensures Sum2(0, n, 0, n, f) <= 0.0
  {
    hide Sum;
    forall i | 0 <= i < n
      ensures Row(0, n, f)(i) <= 0.0
    {
      SumNotPositive(0, n, At(f, i));
    }
    SumNotPositive(0, n, Row(0, n, f));
  }

  lemma Sum3NotPositive(n: int, f: Triple)
    requires forall i, j, k | 0 <= i < n && 0 <= j < n && 0 <= k < n :: f(i, j, k) <= 0.0
    ensures Sum3(0, n, f) <= 0.0
  {
    hide Sum, Sum2;
    forall i, j | 0 <= i < n && 0 <= j < n
      ensures Inner(0, n, f)(i, j) <= 0.0
    {
      SumNotPositive(0, n, Line(f, i, j));
    }
    Sum2NotPositive(n, Inner(0, n, f));
  }
}
