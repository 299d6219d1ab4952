/** Nested sums over boxes of two to four indices, and how factors and sums move through them. */
module BoxSums {
  import opened Sums

  type Pair = (int, int) -> real
  type Quad = (int, int, int, int) -> real

  function Box2(a: int, b: int, f: Pair): real { Sum(0, a, Row(0, b, f)) }

  function Planes(b: int, c: int, f: Triple): int -> real { i => Box2(b, c, Plane(f, i)) }
  function Box3(a: int, b: int, c: int, f: Triple): real { Sum(0, a, Planes(b, c, f)) }

  /** The summand of four indices at a fixed first one, and at two fixed ones. */
  function Solid(f: Quad, i: int): Triple { (j, k, l) => f(i, j, k, l) }
  function Corner(f: Quad, i: int, j: int): Pair { (k, l) => f(i, j, k, l) }

  function Solids(b: int, c: int, d: int, f: Quad): int -> real { i => Box3(b, c, d, Solid(f, i)) }
  function Box4(a: int, b: int, c: int, d: int, f: Quad): real { Sum(0, a, Solids(b, c, d, f)) }

  // ---- linearity ------------------------------------------------------------------------------

  lemma Box2Linear(a: int, b: int, c: real, f: Pair, d: real, g: Pair, h: Pair)
    requires forall i, j :: h(i, j) == c * f(i, j) + d * g(i, j)
    ensures Box2(a, b, h) == c * Box2(a, b, f) + d * Box2(a, b, g)
  {
    Sum2Linear(0, a, 0, b, c, f, d, g, h);
  }

  lemma Box2Scale(a: int, b: int, c: real, f: Pair, g: Pair)
    requires forall i, j | 0 <= i < a && 0 <= j < b :: f(i, j) == c * g(i, j)
    ensures Box2(a, b, f) == c * Box2(a, b, g)
  {
    Sum2Scale(0, a, 0, b, c, f, g);
  }

  lemma Box3Scale(a: int, b: int, c: int, r: real, f: Triple, g: Triple)
    requires forall i, j, k | 0 <= i < a && 0 <= j < b && 0 <= k < c :: f(i, j, k) == r * g(i, j, k)
    ensures Box3(a, b, c, f) == r * Box3(a, b, c, g)
  {
    hide Box2, Sum;
    forall i | 0 <= i < a
      ensures Planes(b, c, f)(i) == r * Planes(b, c, g)(i)
    {
      Box2Scale(b, c, r, Plane(f, i), Plane(g, i));
    }
    SumScale(0, a, r, Planes(b, c, f), Planes(b, c, g));
  }

  lemma Box4Scale(a: int, b: int, c: int, d: int, r: real, f: Quad, g: Quad)
    requires forall i, j, k, l | 0 <= i < a && 0 <= j < b && 0 <= k < c && 0 <= l < d ::
               f(i, j, k, l) == r * g(i, j, k, l)
    ensures Box4(a, b, c, d, f) == r * Box4(a, b, c, d, g)
  {
    hide Box3;
    forall i | 0 <= i < a
      ensures Solids(b, c, d, f)(i) == r * Solids(b, c, d, g)(i)
    {
      Box3Scale(b, c, d, r, Solid(f, i), Solid(g, i));
    }
    SumScale(0, a, r, Solids(b, c, d, f), Solids(b, c, d, g));
  }

  lemma Box3Linear(a: int, b: int, c: int, u: real, f: Triple, v: real, g: Triple, h: Triple)
    requires forall i, j, k :: h(i, j, k) == u * f(i, j, k) + v * g(i, j, k)
    ensures Box3(a, b, c, h) == u * Box3(a, b, c, f) + v * Box3(a, b, c, g)
  {
    hide Box2, Sum;
    forall i
      ensures Planes(b, c, h)(i) == u * Planes(b, c, f)(i) + v * Planes(b, c, g)(i)
    {
      Box2Linear(b, c, u, Plane(f, i), v, Plane(g, i), Plane(h, i));
    }
    SumLinear(0, a, u, Planes(b, c, f), v, Planes(b, c, g), Planes(b, c, h));
  }

  // ---- boxes over boxes -----------------------------------------------------------------------

  /** The inner sums of a box, as summands of the outer indices. */
  function Lines(c: int, f: Triple): Pair { (i, j) => Sum(0, c, Line(f, i, j)) }
  function Corners(c: int, d: int, f: Quad): Pair { (i, j) => Box2(c, d, Corner(f, i, j)) }

  lemma Box3IsPairs(a: int, b: int, c: int, f: Triple)
    ensures Box3(a, b, c, f) == Box2(a, b, Lines(c, f))
  {
    forall i
      ensures Planes(b, c, f)(i) == 1.0 * Row(0, b, Lines(c, f))(i)
    {
      forall j
        ensures Row(0, c, Plane(f, i))(j) == 1.0 * At(Lines(c, f), i)(j)
      {
        SumScale(0, c, 1.0, At(Plane(f, i), j), Line(f, i, j));
      }
      SumScale(0, b, 1.0, Row(0, c, Plane(f, i)), At(Lines(c, f), i));
    }
    SumScale(0, a, 1.0, Planes(b, c, f), Row(0, b, Lines(c, f)));
  }

  lemma Box4IsPairs(a: int, b: int, c: int, d: int, f: Quad)
    ensures Box4(a, b, c, d, f) == Box2(a, b, Corners(c, d, f))
  {
    hide Box2;
    forall i
      ensures Solids(b, c, d, f)(i) == 1.0 * Row(0, b, Corners(c, d, f))(i)
    {
      forall j
        ensures Planes(c, d, Solid(f, i))(j) == 1.0 * At(Corners(c, d, f), i)(j)
      {
        Box2Scale(c, d, 1.0, Plane(Solid(f, i), j), Corner(f, i, j));
      }
      SumScale(0, b, 1.0, Planes(c, d, Solid(f, i)), At(Corners(c, d, f), i));
    }
    SumScale(0, a, 1.0, Solids(b, c, d, f), Row(0, b, Corners(c, d, f)));
    Box2Is(a, b, Corners(c, d, f));
  }

  lemma Box2Is(a: int, b: int, f: Pair)
    ensures Box2(a, b, f) == Sum(0, a, Row(0, b, f)) == Sum2(0, a, 0, b, f)
  {
  }

  // ---- a factor moves inside ------------------------------------------------------------------

  function Times1(c: int -> real, x: int -> real): int -> real { i => c(i) * x(i) }
  function Times2(c: Pair, x: Pair): Pair { (i, j) => c(i, j) * x(i, j) }

  /** A factor in front of an inner sum of two or three indices. */
  function Before3(c: int -> real, f: Triple): Triple { (i, j, k) => c(i) * f(i, j, k) }
  function Before4(c: int -> real, f: Quad): Quad { (i, j, k, l) => c(i) * f(i, j, k, l) }

  /** A factor of two indices in front of an inner sum of one or two. */
  function PairBefore3(c: Pair, f: Triple): Triple { (i, j, k) => c(i, j) * f(i, j, k) }
  function PairBefore4(c: Pair, f: Quad): Quad { (i, j, k, l) => c(i, j) * f(i, j, k, l) }

  /** A one-index intermediate made of a two-index and two three-index sums. */
  lemma Spread(a: int, c: int -> real, x: int -> real,
               b1: int, b2: int, f: Triple, d1: int, d2: int, d3: int, u: real, g: Quad, v: real, h: Quad)
    requires forall i :: x(i) == Box2(b1, b2, Plane(f, i)) + u * Box3(d1, d2, d3, Solid(g, i))
                               + v * Box3(d1, d2, d3, Solid(h, i))
    ensures Sum(0, a, Times1(c, x)) == Box3(a, b1, b2, Before3(c, f)) + u * Box4(a, d1, d2, d3, Before4(c, g))
                                    + v * Box4(a, d1, d2, d3, Before4(c, h))
  {
    hide Box2, Box3, Sum;
    var p, q, r := Planes(b1, b2, Before3(c, f)), Solids(d1, d2, d3, Before4(c, g)), Solids(d1, d2, d3, Before4(c, h));
    var both: int -> real := i => u * q(i) + v * r(i);
    forall i
      ensures Times1(c, x)(i) == 1.0 * p(i) + 1.0 * both(i)
    {
      FactorInside(b1, b2, f, d1, d2, d3, g, c, i);
      FactorInside(b1, b2, f, d1, d2, d3, h, c, i);
      Three(c(i), x(i), Box2(b1, b2, Plane(f, i)), u, Box3(d1, d2, d3, Solid(g, i)), v, Box3(d1, d2, d3, Solid(h, i)));
    }
    SumLinear(0, a, u, q, v, r, both);
    SumLinear(0, a, 1.0, p, 1.0, both, Times1(c, x));
    BoxesAreSums(a, b1, b2, Before3(c, f), d1, d2, d3, Before4(c, g), Before4(c, h));
  }

  lemma BoxesAreSums(a: int, b1: int, b2: int, f: Triple, d1: int, d2: int, d3: int, g: Quad, h: Quad)
    ensures Box3(a, b1, b2, f) == Sum(0, a, Planes(b1, b2, f))
    ensures Box4(a, d1, d2, d3, g) == Sum(0, a, Solids(d1, d2, d3, g))
    ensures Box4(a, d1, d2, d3, h) == Sum(0, a, Solids(d1, d2, d3, h))
  {
  }

  lemma Three(c: real, x: real, p: real, u: real, q: real, v: real, r: real)
    requires x == p + u * q + v * r
    ensures c * x == c * p + u * (c * q) + v * (c * r)
  {
  }

  lemma FactorInside(b1: int, b2: int, f: Triple, d1: int, d2: int, d3: int, g: Quad, c: int -> real, i: int)
    ensures Box2(b1, b2, Plane(Before3(c, f), i)) == c(i) * Box2(b1, b2, Plane(f, i))
    ensures Box3(d1, d2, d3, Solid(Before4(c, g), i)) == c(i) * Box3(d1, d2, d3, Solid(g, i))
  {
    hide Box2, Box3;
    Box2Scale(b1, b2, c(i), Plane(Before3(c, f), i), Plane(f, i));
    Box3Scale(d1, d2, d3, c(i), Solid(Before4(c, g), i), Solid(g, i));
  }

  /** A two-index intermediate made of an element, two one-index and two two-index sums. */
  lemma SpreadPair(a: int, b: int, c: Pair, w: Pair, e: Pair, p: int, x: Triple, p': int, y: Triple,
                   q1: int, q2: int, u: real, f: Quad, v: real, g: Quad)
    requires forall i, j :: w(i, j) == e(i, j) + Sum(0, p, Line(x, i, j)) - Sum(0, p', Line(y, i, j))
                                     + u * Box2(q1, q2, Corner(f, i, j)) + v * Box2(q1, q2, Corner(g, i, j))
    ensures Box2(a, b, Times2(c, w))
         == Box2(a, b, Times2(c, e)) + Box3(a, b, p, PairBefore3(c, x)) - Box3(a, b, p', PairBefore3(c, y))
          + u * Box4(a, b, q1, q2, PairBefore4(c, f)) + v * Box4(a, b, q1, q2, PairBefore4(c, g))
  {
    hide Box2, Box3, Box4, Sum, Times2, PlusPair, Lines, Corners;
    var l, l' := Lines(p, PairBefore3(c, x)), Lines(p', PairBefore3(c, y));
    var k, k' := Corners(q1, q2, PairBefore4(c, f)), Corners(q1, q2, PairBefore4(c, g));
    var one := PlusPair(Times2(c, e), 1.0, l);
    var two := PlusPair(one, -1.0, l');
    var three := PlusPair(two, u, k);
    forall i, j
      ensures Times2(c, w)(i, j) == 1.0 * PlusPair(three, v, k')(i, j)
    {
      SpreadElement(c, w, e, p, x, p', y, q1, q2, u, f, v, g, i, j);
    }
    Box2Scale(a, b, 1.0, Times2(c, w), PlusPair(three, v, k'));
    Box2Plus(a, b, three, v, k');
    Box2Plus(a, b, two, u, k);
    Box2Plus(a, b, one, -1.0, l');
    Box2Plus(a, b, Times2(c, e), 1.0, l);
    Box3IsPairs(a, b, p, PairBefore3(c, x));
    Box3IsPairs(a, b, p', PairBefore3(c, y));
    Box4IsPairs(a, b, q1, q2, PairBefore4(c, f));
    Box4IsPairs(a, b, q1, q2, PairBefore4(c, g));
  }

  function PlusPair(f: Pair, u: real, g: Pair): Pair { (i, j) => f(i, j) + u * g(i, j) }

  lemma Box2Plus(a: int, b: int, f: Pair, u: real, g: Pair)
    ensures Box2(a, b, PlusPair(f, u, g)) == Box2(a, b, f) + u * Box2(a, b, g)
  {
    hide Box2;
    Box2Linear(a, b, 1.0, f, u, g, PlusPair(f, u, g));
  }

  lemma SpreadElement(c: Pair, w: Pair, e: Pair, p: int, x: Triple, p': int, y: Triple,
                      q1: int, q2: int, u: real, f: Quad, v: real, g: Quad, i: int, j: int)
    requires w(i, j) == e(i, j) + Sum(0, p, Line(x, i, j)) - Sum(0, p', Line(y, i, j))
                      + u * Box2(q1, q2, Corner(f, i, j)) + v * Box2(q1, q2, Corner(g, i, j))
    ensures Times2(c, w)(i, j)
         == PlusPair(PlusPair(PlusPair(PlusPair(Times2(c, e), 1.0, Lines(p, PairBefore3(c, x))), -1.0,
                                       Lines(p', PairBefore3(c, y))),
                              u, Corners(q1, q2, PairBefore4(c, f))),
                     v, Corners(q1, q2, PairBefore4(c, g)))(i, j)
  {
    hide Box2, Sum;
    PairInside(p, x, q1, q2, f, c, i, j);
    PairInside(p', y, q1, q2, g, c, i, j);
    Five(c(i, j), w(i, j), e(i, j), Sum(0, p, Line(x, i, j)), Sum(0, p', Line(y, i, j)),
         u, Box2(q1, q2, Corner(f, i, j)), v, Box2(q1, q2, Corner(g, i, j)));
  }

  lemma Five(c: real, w: real, e: real, x: real, y: real, u: real, p: real, v: real, q: real)
    requires w == e + x - y + u * p + v * q
    ensures c * w == c * e + c * x - c * y + u * (c * p) + v * (c * q)
  {
  }

  lemma PairInside(p: int, x: Triple, q1: int, q2: int, f: Quad, c: Pair, i: int, j: int)
    ensures Sum(0, p, Line(PairBefore3(c, x), i, j)) == c(i, j) * Sum(0, p, Line(x, i, j))
    ensures Box2(q1, q2, Corner(PairBefore4(c, f), i, j)) == c(i, j) * Box2(q1, q2, Corner(f, i, j))
  {
    hide Box2, Sum;
    SumScale(0, p, c(i, j), Line(PairBefore3(c, x), i, j), Line(x, i, j));
    Box2Scale(q1, q2, c(i, j), Corner(PairBefore4(c, f), i, j), Corner(f, i, j));
  }

  // ---- exchanging two of three indices --------------------------------------------------------

  lemma Box3SwapFirst(a: int, b: int, c: int, f: Triple)
    ensures Box3(a, b, c, Swap01(f)) == Box3(b, a, c, f)
  {
    Box3IsPairs(a, b, c, Swap01(f));
    Box3IsPairs(b, a, c, f);
    Sum2Swap(0, b, 0, a, Lines(c, f));
    forall i, j
      ensures Lines(c, Swap01(f))(i, j) == 1.0 * Flip(Lines(c, f))(i, j)
    {
      SumScale(0, c, 1.0, Line(Swap01(f), i, j), Line(f, j, i));
    }
    Box2Scale(a, b, 1.0, Lines(c, Swap01(f)), Flip(Lines(c, f)));
  }

  lemma Box3SwapLast(a: int, b: int, f: Triple)
    ensures Box3(a, b, b, Swap12(f)) == Box3(a, b, b, f)
  {
    forall i
      ensures Planes(b, b, Swap12(f))(i) == 1.0 * Planes(b, b, f)(i)
    {
      Sum2Swap(0, b, 0, b, Plane(f, i));
      Box2Scale(b, b, 1.0, Plane(Swap12(f), i), Flip(Plane(f, i)));
    }
    SumScale(0, a, 1.0, Planes(b, b, Swap12(f)), Planes(b, b, f));
  }

  /** Half a summand and half its mirror image weigh as much as the summand. */
  lemma Halves(a: int, b: int, c: int, f: Triple, d: Triple, p: Triple, q: Triple)
    requires Box3(a, b, c, q) == Box3(a, b, c, p)
    requires forall i, j, k :: f(i, j, k) == d(i, j, k) + 0.5 * p(i, j, k) + 0.5 * q(i, j, k)
    ensures Box3(a, b, c, f) == Box3(a, b, c, d) + Box3(a, b, c, p)
  {
    hide Box3;
    var both: Triple := (i, j, k) => 0.5 * p(i, j, k) + 0.5 * q(i, j, k);
    Box3Linear(a, b, c, 0.5, p, 0.5, q, both);
    Box3Linear(a, b, c, 1.0, d, 1.0, both, f);
  }

  // ---- antisymmetric factors ------------------------------------------------------------------

  /** Against an antisymmetric factor, a product and minus its mirror image weigh the same. */
  lemma MirrorWeighsTheSame(n: int, p: Pair, w: Pair, q: Pair)
    requires forall k, l :: w(k, l) == -w(l, k) && q(k, l) == p(l, k)
    ensures Box2(n, n, Times2(q, w)) == -Box2(n, n, Times2(p, w))
  {
    var f := Times2(p, w);
    Sum2Swap(0, n, 0, n, f);
    forall k, l
      ensures Times2(q, w)(k, l) == -1.0 * Flip(f)(k, l)
    {
      assert w(k, l) == -w(l, k);
    }
    Sum2Scale(0, n, 0, n, -1.0, Times2(q, w), Flip(f));
  }

  /** Doubles plus an antisymmetrized product, against an antisymmetric factor. */
  lemma TauAgainst(n: int, tau: Pair, d: Pair, p: Pair, w: Pair)
    requires forall k, l :: w(k, l) == -w(l, k) && tau(k, l) == d(k, l) + p(k, l) - p(l, k)
    ensures Box2(n, n, Times2(tau, w)) == Box2(n, n, Times2(d, w)) + 2.0 * Box2(n, n, Times2(p, w))
  {
    hide Box2;
    var q := Flip(p);
    var one: Pair := (k, l) => Times2(d, w)(k, l) + Times2(p, w)(k, l);
    MirrorWeighsTheSame(n, p, w, q);
    Box2Linear(n, n, 1.0, Times2(d, w), 1.0, Times2(p, w), one);
    forall k, l
      ensures Times2(tau, w)(k, l) == 1.0 * one(k, l) + -1.0 * Times2(q, w)(k, l)
    {
      assert tau(k, l) == d(k, l) + p(k, l) - q(k, l);
    }
    Box2Linear(n, n, 1.0, one, -1.0, Times2(q, w), Times2(tau, w));
  }

  // ---- exchanging sums ------------------------------------------------------------------------

  function Partly(lo: int, c: int, f: Triple): Pair { (i, j) => Sum(lo, c, Line(f, i, j)) }

  /** A three-index summand at a fixed last index. */
  function Slab(f: Triple, k: int): Pair { (i, j) => f(i, j, k) }
  function Slabs(a: int, b: int, f: Triple): int -> real { k => Box2(a, b, Slab(f, k)) }

  /** A sum moves out of a pair of sums. */
  lemma {:induction false} PastPair(a: int, b: int, lo: int, c: int, f: Triple)
    ensures Box2(a, b, Partly(lo, c, f)) == Sum(lo, c, Slabs(a, b, f))
    decreases c - lo
  {
    hide Box2;
    if lo < c {
      PastPair(a, b, lo + 1, c, f);
      Box2Linear(a, b, 1.0, Slab(f, lo), 1.0, Partly(lo + 1, c, f), Partly(lo, c, f));
    } else {
      Box2Scale(a, b, 0.0, Partly(lo, c, f), Partly(lo, c, f));
    }
  }

  function Exchanged(f: Quad): Quad { (k, l, i, j) => f(i, j, k, l) }

  /** What a box sums at three of its four indices. */
  function Ends(d: int, f: Quad): Triple { (i, j, k) => Sum(0, d, At(Corner(f, i, j), k)) }

  /** A four-index summand at a fixed third index. */
  function Third(f: Quad, k: int): Triple { (i, j, l) => f(i, j, k, l) }

  /** Two pairs of indices may be summed in either order. */
  lemma PairsExchange(a: int, b: int, c: int, d: int, f: Quad)
    ensures Box4(a, b, c, d, f) == Box4(c, d, a, b, Exchanged(f))
  {
    hide Box2, Box4, Sum;
    Box4IsPairs(a, b, c, d, f);
    Box4IsPairs(c, d, a, b, Exchanged(f));
    var outer := Slabs(a, b, Ends(d, f));
    forall i, j
      ensures Corners(c, d, f)(i, j) == 1.0 * Partly(0, c, Ends(d, f))(i, j)
    {
      CornerIsLine(c, d, f, i, j);
    }
    Box2Scale(a, b, 1.0, Corners(c, d, f), Partly(0, c, Ends(d, f)));
    PastPair(a, b, 0, c, Ends(d, f));
    forall k
      ensures outer(k) == 1.0 * Row(0, d, Corners(a, b, Exchanged(f)))(k)
    {
      InnerExchange(a, b, d, f, k);
    }
    SumScale(0, c, 1.0, outer, Row(0, d, Corners(a, b, Exchanged(f))));
    Box2Is(c, d, Corners(a, b, Exchanged(f)));
  }

  lemma CornerIsLine(c: int, d: int, f: Quad, i: int, j: int)
    ensures Box2(c, d, Corner(f, i, j)) == Sum(0, c, Line(Ends(d, f), i, j))
  {
    Box2Is(c, d, Corner(f, i, j));
    hide Box2, Sum;
    SumScale(0, c, 1.0, Row(0, d, Corner(f, i, j)), Line(Ends(d, f), i, j));
  }

  lemma InnerExchange(a: int, b: int, d: int, f: Quad, k: int)
    ensures Box2(a, b, Slab(Ends(d, f), k)) == Sum(0, d, At(Corners(a, b, Exchanged(f)), k))
  {
    hide Box2, Sum;
    forall i, j
      ensures Slab(Ends(d, f), k)(i, j) == 1.0 * Partly(0, d, Third(f, k))(i, j)
    {
      SumScale(0, d, 1.0, At(Corner(f, i, j), k), Line(Third(f, k), i, j));
    }
    Box2Scale(a, b, 1.0, Slab(Ends(d, f), k), Partly(0, d, Third(f, k)));
    PastPair(a, b, 0, d, Third(f, k));
    forall l
      ensures Slabs(a, b, Third(f, k))(l) == 1.0 * At(Corners(a, b, Exchanged(f)), k)(l)
    {
      Box2Scale(a, b, 1.0, Slab(Third(f, k), l), Corner(Exchanged(f), k, l));
    }
    SumScale(0, d, 1.0, Slabs(a, b, Third(f, k)), At(Corners(a, b, Exchanged(f)), k));
  }

  /** The first index of four moves behind the next two. */
  function Later(f: Quad): Quad { (j, k, i, l) => f(i, j, k, l) }

  /** What a box sums at three indices, the first of them last. */
  function Inside(d: int, f: Quad): Triple { (j, k, i) => Sum(0, d, Line(Solid(f, i), j, k)) }

  lemma FirstMovesIn(a: int, b: int, c: int, d: int, f: Quad)
    ensures Box4(a, b, c, d, f) == Box4(b, c, a, d, Later(f))
  {
    hide Box2, Box3, Sum;
    var g := Inside(d, f);
    Box4IsPairs(b, c, a, d, Later(f));
    forall j, k
      ensures Corners(a, d, Later(f))(j, k) == 1.0 * Partly(0, a, g)(j, k)
    {
      LaterCorner(a, d, f, j, k);
    }
    Box2Scale(b, c, 1.0, Corners(a, d, Later(f)), Partly(0, a, g));
    PastPair(b, c, 0, a, g);
    forall i
      ensures Solids(b, c, d, f)(i) == 1.0 * Slabs(b, c, g)(i)
    {
      Box3IsPairs(b, c, d, Solid(f, i));
      Box2Scale(b, c, 1.0, Lines(d, Solid(f, i)), Slab(g, i));
    }
    SumScale(0, a, 1.0, Solids(b, c, d, f), Slabs(b, c, g));
  }

  lemma LaterCorner(a: int, d: int, f: Quad, j: int, k: int)
    ensures Box2(a, d, Corner(Later(f), j, k)) == Sum(0, a, Line(Inside(d, f), j, k))
  {
    Box2Is(a, d, Corner(Later(f), j, k));
    hide Box2, Sum;
    forall i
      ensures Row(0, d, Corner(Later(f), j, k))(i) == 1.0 * Line(Inside(d, f), j, k)(i)
    {
      SumScale(0, d, 1.0, At(Corner(Later(f), j, k), i), Line(Solid(f, i), j, k));
    }
    SumScale(0, a, 1.0, Row(0, d, Corner(Later(f), j, k)), Line(Inside(d, f), j, k));
  }
}
