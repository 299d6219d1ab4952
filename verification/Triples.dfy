/** The perturbative triples correction: the oracle's two energies, the antisymmetry of the
    connected triples, and the two exact economies - folding the disconnected antisymmetrizer
    away, and visiting only i < j < k. */
module Triples {
  import opened Sums
  import opened Einsum
  import opened SpinOrbital
  import opened Ccsd

  // ---- the oracle --------------------------------------------------------------------------

  /** sum_e t2[jkae] <ei||bc> - sum_m t2[imbc] <ma||jk> */
  function Xc(s: System, t: Amps): Val {
    Minus(s.E("ijkabc", "e", "jkae", t.t2, "eibc", s.Block("vovv")),
          s.E("ijkabc", "m", "imbc", t.t2, "majk", s.Block("ovoo")))
  }

  /** t1[ia] <jk||bc> */
  function Xd(s: System, t: Amps): Val { s.E("ijkabc", "", "ia", t.t1, "jkbc", s.Block("oovv")) }

  /** f - f with p, q exchanged - f with p, r exchanged: P(i/jk) on axes 0, 1, 2 and P(a/bc) on 3, 4, 5. */
  function P3(a: Val, p: nat, q: nat, r: nat): Val { Minus(Minus(a, SwapAxes(a, p, q)), SwapAxes(a, p, r)) }

  function Antisymmetrized6(a: Val): Val { P3(P3(a, 0, 1, 2), 3, 4, 5) }

  function W(s: System, t: Amps): Val { Antisymmetrized6(Xc(s, t)) }
  function V(s: System, t: Amps): Val { Antisymmetrized6(Xd(s, t)) }

  /** The v^3 block of one occupied triple, and the sum of a whole rank-6 tensor. */
  function Elements(f: Val, i: int, j: int, k: int): Triple { (a, b, c) => f([i, j, k, a, b, c]) }
  function BlockSum(nv: int, f: Val): Triple { (i, j, k) => Sum3(0, nv, Elements(f, i, j, k)) }
  function Sum6(s: System, f: Val): real { Sum3(0, s.no, BlockSum(s.nv, f)) }

  function Summand(s: System, t: Amps): Val { Divide(Product(W(s, t), Plus(W(s, t), V(s, t))), s.Dijkabc()) }

  /** (1/36) sum W (W + V) / D */
  function Naive(s: System, t: Amps): real { Sum6(s, Summand(s, t)) / 36.0 }

  /** (1/4) sum (W / D) (Xc + Xd) */
  function Folded(s: System, t: Amps): real {
    0.25 * Sum6(s, Product(Divide(W(s, t), s.Dijkabc()), Plus(Xc(s, t), Xd(s, t))))
  }

  // ---- antisymmetry -------------------------------------------------------------------------

  /** All that the occupied labels need: doubles and integral blocks antisymmetric in their occupied pairs. */
  ghost predicate OccupiedPairs(s: System, t: Amps) {
    Antisym(4, t.t2, 0, 1) && Antisym(4, s.Block("ovoo"), 2, 3) && Antisym(4, s.Block("oovv"), 0, 1)
  }

  /** And all that the virtual labels need. */
  ghost predicate VirtualPairs(s: System, t: Amps) {
    Antisym(4, t.t2, 2, 3) && Antisym(4, s.Block("vovv"), 2, 3) && Antisym(4, s.Block("oovv"), 2, 3)
  }

  lemma FermionicPairs(s: System, t: Amps)
    requires Fermionic(s.g) && PairAntisym(t.t2)
    ensures OccupiedPairs(s, t) && VirtualPairs(s, t)
  {
    BlockAntisym(s, "ovoo", 2, 3);
    BlockAntisym(s, "vovv", 2, 3);
    BlockAntisym(s, "oovv", 0, 1);
    BlockAntisym(s, "oovv", 2, 3);
  }

  lemma LastOccupiedPair(s: System, t: Amps)
    requires OccupiedPairs(s, t)
    ensures Antisym(6, Xc(s, t), 1, 2) && Antisym(6, Xd(s, t), 1, 2)
  {
    hide Ein;
    var n, vovv, ovoo := s.Extents(), s.Block("vovv"), s.Block("ovoo");
    EinInheritsAntisymmetry(n, "ijkabc", "e", Op("jkae", t.t2), Op("eibc", vovv), 1, 2, 0, 1);
    EinInheritsAntisymmetry(n, "ijkabc", "m", Op("imbc", t.t2), Op("majk", ovoo), 1, 2, 2, 3);
    MinusAntisym(s.E("ijkabc", "e", "jkae", t.t2, "eibc", vovv), s.E("ijkabc", "m", "imbc", t.t2, "majk", ovoo), 1, 2);
    EinInheritsAntisymmetry(n, "ijkabc", "", Op("ia", t.t1), Op("jkbc", s.Block("oovv")), 1, 2, 0, 1);
  }

  lemma LastVirtualPair(s: System, t: Amps)
    requires VirtualPairs(s, t)
    ensures Antisym(6, Xc(s, t), 4, 5) && Antisym(6, Xd(s, t), 4, 5)
  {
    hide Ein;
    var n, vovv, ovoo := s.Extents(), s.Block("vovv"), s.Block("ovoo");
    EinInheritsAntisymmetry(n, "ijkabc", "e", Op("jkae", t.t2), Op("eibc", vovv), 4, 5, 2, 3);
    EinInheritsAntisymmetry(n, "ijkabc", "m", Op("imbc", t.t2), Op("majk", ovoo), 4, 5, 2, 3);
    MinusAntisym(s.E("ijkabc", "e", "jkae", t.t2, "eibc", vovv), s.E("ijkabc", "m", "imbc", t.t2, "majk", ovoo), 4, 5);
    EinInheritsAntisymmetry(n, "ijkabc", "", Op("ia", t.t1), Op("jkbc", s.Block("oovv")), 4, 5, 2, 3);
  }

  lemma MinusAntisym(a: Val, b: Val, p: nat, q: nat)
    requires Antisym(6, a, p, q) && Antisym(6, b, p, q)
    ensures Antisym(6, Minus(a, b), p, q)
  {
    forall x: seq<int> | |x| == 6
      ensures Minus(a, b)(Exchange(x, p, q)) == -Minus(a, b)(x)
    {
      assert a(Exchange(x, p, q)) == -a(x) && b(Exchange(x, p, q)) == -b(x);
    }
  }

  /** Three distinct axes, as P(p/qr) needs them. */
  predicate Axes(p: nat, q: nat, r: nat) { p < 6 && q < 6 && r < 6 && p != q && p != r && q != r }

  /** P(p/qr) turns antisymmetry in q, r into full antisymmetry in p, q, r. */
  lemma P3Antisymmetrizes(a: Val, p: nat, q: nat, r: nat)
    requires Axes(p, q, r) && Antisym(6, a, q, r)
    ensures Antisym(6, P3(a, p, q, r), p, q) && Antisym(6, P3(a, p, q, r), p, r) && Antisym(6, P3(a, p, q, r), q, r)
  {
    forall x: seq<int> | |x| == 6
      ensures P3(a, p, q, r)(Exchange(x, p, q)) == -P3(a, p, q, r)(x)
      ensures P3(a, p, q, r)(Exchange(x, p, r)) == -P3(a, p, q, r)(x)
      ensures P3(a, p, q, r)(Exchange(x, q, r)) == -P3(a, p, q, r)(x)
    {
      P3ChangesSign(a, x, p, q, r);
    }
  }

  lemma P3ChangesSign(a: Val, x: seq<int>, p: nat, q: nat, r: nat)
    requires |x| == 6 && Axes(p, q, r) && Antisym(6, a, q, r)
    ensures P3(a, p, q, r)(Exchange(x, p, q)) == -P3(a, p, q, r)(x)
    ensures P3(a, p, q, r)(Exchange(x, p, r)) == -P3(a, p, q, r)(x)
    ensures P3(a, p, q, r)(Exchange(x, q, r)) == -P3(a, p, q, r)(x)
  {
    var pq, pr, qr := Exchange(x, p, q), Exchange(x, p, r), Exchange(x, q, r);
    assert a(Exchange(pr, q, r)) == -a(pr) && a(Exchange(pq, q, r)) == -a(pq) && a(qr) == -a(x);
    hide Antisym, Exchange;
    ExchangesCompose(x, p, q, r);
    assert P3(a, p, q, r)(x) == a(x) - a(pq) - a(pr);
    assert P3(a, p, q, r)(pq) == a(pq) - a(x) - a(Exchange(pr, q, r));
    assert P3(a, p, q, r)(pr) == a(pr) - a(Exchange(pq, q, r)) - a(x);
    assert P3(a, p, q, r)(qr) == a(qr) - a(Exchange(pr, q, r)) - a(Exchange(pq, q, r));
  }

  lemma ExchangesCompose(x: seq<int>, p: nat, q: nat, r: nat)
    requires |x| == 6 && Axes(p, q, r)
    ensures var pq, pr, qr := Exchange(x, p, q), Exchange(x, p, r), Exchange(x, q, r);
            && Exchange(pq, p, q) == x && Exchange(pr, p, r) == x
            && Exchange(pq, p, r) == Exchange(pr, q, r) && Exchange(pr, p, q) == Exchange(pq, q, r)
            && Exchange(qr, p, q) == Exchange(pr, q, r) && Exchange(qr, p, r) == Exchange(pq, q, r)
  {
  }

  lemma P3KeepsAntisymmetry(a: Val, p: nat, q: nat, r: nat, u: nat, v: nat)
    requires Axes(p, q, r) && u < 6 && v < 6 && u != p && u != q && u != r && v != p && v != q && v != r
    requires Antisym(6, a, u, v)
    ensures Antisym(6, P3(a, p, q, r), u, v)
  {
    forall x: seq<int> | |x| == 6
      ensures P3(a, p, q, r)(Exchange(x, u, v)) == -P3(a, p, q, r)(x)
    {
      AxesDisjoint(x, u, v, p, q);
      AxesDisjoint(x, u, v, p, r);
      assert a(Exchange(Exchange(x, p, q), u, v)) == -a(Exchange(x, p, q));
      assert a(Exchange(Exchange(x, p, r), u, v)) == -a(Exchange(x, p, r));
    }
  }

  /** Antisymmetric under every exchange inside the occupied and inside the virtual triple. */
  ghost predicate FullyAntisym(a: Val) {
    && Antisym(6, a, 0, 1) && Antisym(6, a, 0, 2) && Antisym(6, a, 1, 2)
    && Antisym(6, a, 3, 4) && Antisym(6, a, 3, 5) && Antisym(6, a, 4, 5)
  }

  lemma AntisymmetrizedIsFullyAntisym(a: Val)
    requires Antisym(6, a, 1, 2) && Antisym(6, a, 4, 5)
    ensures FullyAntisym(Antisymmetrized6(a))
  {
    var y := P3(a, 0, 1, 2);
    P3Antisymmetrizes(a, 0, 1, 2);
    P3KeepsAntisymmetry(a, 0, 1, 2, 4, 5);
    P3Antisymmetrizes(y, 3, 4, 5);
    P3KeepsAntisymmetry(y, 3, 4, 5, 0, 1);
    P3KeepsAntisymmetry(y, 3, 4, 5, 0, 2);
    P3KeepsAntisymmetry(y, 3, 4, 5, 1, 2);
  }

  lemma ConnectedTriplesAntisym(s: System, t: Amps)
    requires OccupiedPairs(s, t) && VirtualPairs(s, t)
    ensures FullyAntisym(W(s, t)) && FullyAntisym(V(s, t))
  {
    LastOccupiedPair(s, t);
    LastVirtualPair(s, t);
    AntisymmetrizedIsFullyAntisym(Xc(s, t));
    AntisymmetrizedIsFullyAntisym(Xd(s, t));
  }

  /** Antisymmetric under every exchange inside the occupied triple. */
  ghost predicate OccupiedAntisym(a: Val) { Antisym(6, a, 0, 1) && Antisym(6, a, 0, 2) && Antisym(6, a, 1, 2) }

  lemma AntisymmetrizedIsOccupiedAntisym(a: Val)
    requires Antisym(6, a, 1, 2)
    ensures OccupiedAntisym(Antisymmetrized6(a))
  {
    var y := P3(a, 0, 1, 2);
    P3Antisymmetrizes(a, 0, 1, 2);
    P3KeepsAntisymmetry(y, 3, 4, 5, 0, 1);
    P3KeepsAntisymmetry(y, 3, 4, 5, 0, 2);
    P3KeepsAntisymmetry(y, 3, 4, 5, 1, 2);
  }

  /** The occupied labels of W and V need nothing of the virtual ones. */
  lemma OccupiedTriplesAntisym(s: System, t: Amps)
    requires OccupiedPairs(s, t)
    ensures OccupiedAntisym(W(s, t)) && OccupiedAntisym(V(s, t))
  {
    LastOccupiedPair(s, t);
    AntisymmetrizedIsOccupiedAntisym(Xc(s, t));
    AntisymmetrizedIsOccupiedAntisym(Xd(s, t));
  }

  // ---- the fold -----------------------------------------------------------------------------

  /** Inside one block, a factor antisymmetric in the virtual labels turns P(a/bc) y into 3 y. */
  lemma FoldVirtual(nv: int, q: Val, y: Val, i: int, j: int, k: int)
    requires Antisym(6, q, 3, 4) && Antisym(6, q, 3, 5)
    ensures BlockSum(nv, Product(q, P3(y, 3, 4, 5)))(i, j, k) == 3.0 * BlockSum(nv, Product(q, y))(i, j, k)
  {
    hide Product, SwapAxes, P3, Elements, Sum3, Swap01, Swap02;
    var f := Elements(Product(q, y), i, j, k);
    var g, h := Elements(Product(q, SwapAxes(y, 3, 4)), i, j, k), Elements(Product(q, SwapAxes(y, 3, 5)), i, j, k);
    forall a, b, c
      ensures g(a, b, c) == -1.0 * Swap01(f)(a, b, c) && h(a, b, c) == -1.0 * Swap02(f)(a, b, c)
    {
      VirtualSignMoves(q, y, i, j, k, a, b, c);
    }
    Sum3Scale(0, nv, -1.0, g, Swap01(f));
    Sum3Scale(0, nv, -1.0, h, Swap02(f));
    Sum3Swap01(0, nv, f);
    Sum3Swap02(0, nv, f);
    ThreeTerms(nv, q, y, i, j, k);
  }

  lemma VirtualSignMoves(q: Val, y: Val, i: int, j: int, k: int, a: int, b: int, c: int)
    requires Antisym(6, q, 3, 4) && Antisym(6, q, 3, 5)
    ensures Elements(Product(q, SwapAxes(y, 3, 4)), i, j, k)(a, b, c)
              == -Swap01(Elements(Product(q, y), i, j, k))(a, b, c)
    ensures Elements(Product(q, SwapAxes(y, 3, 5)), i, j, k)(a, b, c)
              == -Swap02(Elements(Product(q, y), i, j, k))(a, b, c)
  {
    hide Product, SwapAxes;
    SignMoves(q, y, [i, j, k, a, b, c], 3, 4);
    SignMoves(q, y, [i, j, k, a, b, c], 3, 5);
    assert Exchange([i, j, k, a, b, c], 3, 4) == [i, j, k, b, a, c];
    assert Exchange([i, j, k, a, b, c], 3, 5) == [i, j, k, c, b, a];
  }

  lemma SignMoves(q: Val, y: Val, x: seq<int>, u: nat, v: nat)
    requires |x| == 6 && Antisym(6, q, u, v)
    ensures Product(q, SwapAxes(y, u, v))(x) == -Product(q, y)(Exchange(x, u, v))
  {
    var m, z := q(x), y(Exchange(x, u, v));
    assert q(Exchange(x, u, v)) == -m;
  }

  lemma ThreeTermElement(q: Val, y: Val, x: seq<int>, u: nat, v: nat, w: nat)
    ensures Product(q, P3(y, u, v, w))(x)
         == Product(q, y)(x) - Product(q, SwapAxes(y, u, v))(x) - Product(q, SwapAxes(y, u, w))(x)
  {
    var m, r, s, t := q(x), y(x), y(Exchange(x, u, v)), y(Exchange(x, u, w));
    assert m * (r - s - t) == m * r - m * s - m * t;
  }

  lemma ThreeTermCell(q: Val, y: Val, i: int, j: int, k: int, a: int, b: int, c: int)
    ensures Elements(Product(q, P3(y, 3, 4, 5)), i, j, k)(a, b, c)
         == Elements(Product(q, y), i, j, k)(a, b, c) - Elements(Product(q, SwapAxes(y, 3, 4)), i, j, k)(a, b, c)
          - Elements(Product(q, SwapAxes(y, 3, 5)), i, j, k)(a, b, c)
  {
    hide Product, P3, SwapAxes;
    ThreeTermElement(q, y, [i, j, k, a, b, c], 3, 4, 5);
  }

  lemma ThreeTerms(nv: int, q: Val, y: Val, i: int, j: int, k: int)
    ensures BlockSum(nv, Product(q, P3(y, 3, 4, 5)))(i, j, k)
         == BlockSum(nv, Product(q, y))(i, j, k) - BlockSum(nv, Product(q, SwapAxes(y, 3, 4)))(i, j, k)
          - BlockSum(nv, Product(q, SwapAxes(y, 3, 5)))(i, j, k)
  {
    hide Product, P3, Sum3, SwapAxes, Elements;
    var f := Elements(Product(q, y), i, j, k);
    var g, h := Elements(Product(q, SwapAxes(y, 3, 4)), i, j, k), Elements(Product(q, SwapAxes(y, 3, 5)), i, j, k);
    var all := Elements(Product(q, P3(y, 3, 4, 5)), i, j, k);
    var two: Triple := (a, b, c) => f(a, b, c) - g(a, b, c);
    Sum3Linear(0, nv, 1.0, f, -1.0, g, two);
    forall a, b, c
      ensures all(a, b, c) == 1.0 * two(a, b, c) + -1.0 * h(a, b, c)
    {
      ThreeTermCell(q, y, i, j, k, a, b, c);
    }
    Sum3Linear(0, nv, 1.0, two, -1.0, h, all);
  }

  lemma Sum6Linear(s: System, c: real, f: Val, d: real, g: Val, h: Val)
    requires forall x | |x| == 6 :: h(x) == c * f(x) + d * g(x)
    ensures Sum6(s, h) == c * Sum6(s, f) + d * Sum6(s, g)
  {
    hide Sum3;
    forall i, j, k
      ensures BlockSum(s.nv, h)(i, j, k) == c * BlockSum(s.nv, f)(i, j, k) + d * BlockSum(s.nv, g)(i, j, k)
    {
      Sum3Linear(0, s.nv, c, Elements(f, i, j, k), d, Elements(g, i, j, k), Elements(h, i, j, k));
    }
    Sum3Linear(0, s.no, c, BlockSum(s.nv, f), d, BlockSum(s.nv, g), BlockSum(s.nv, h));
  }

  /** Over the whole tensor, a factor antisymmetric in the occupied labels turns P(i/jk) x into 3 x. */
  lemma FoldOccupied(s: System, q: Val, y: Val)
    requires Antisym(6, q, 0, 1) && Antisym(6, q, 0, 2)
    ensures Sum6(s, Product(q, P3(y, 0, 1, 2))) == 3.0 * Sum6(s, Product(q, y))
  {
    hide Sum3, Product, P3, BlockSum;
    var f, g, h := Product(q, y), Product(q, SwapAxes(y, 0, 1)), Product(q, SwapAxes(y, 0, 2));
    forall i, j, k
      ensures BlockSum(s.nv, g)(i, j, k) == -1.0 * Swap01(BlockSum(s.nv, f))(i, j, k)
      ensures BlockSum(s.nv, h)(i, j, k) == -1.0 * Swap02(BlockSum(s.nv, f))(i, j, k)
    {
      BlockSignMoves(s, q, y, i, j, k);
    }
    Sum3Scale(0, s.no, -1.0, BlockSum(s.nv, g), Swap01(BlockSum(s.nv, f)));
    Sum3Scale(0, s.no, -1.0, BlockSum(s.nv, h), Swap02(BlockSum(s.nv, f)));
    Sum3Swap01(0, s.no, BlockSum(s.nv, f));
    Sum3Swap02(0, s.no, BlockSum(s.nv, f));
    OccupiedTerms(s, q, y);
  }

  lemma OccupiedTerms(s: System, q: Val, y: Val)
    ensures Sum6(s, Product(q, P3(y, 0, 1, 2)))
         == Sum6(s, Product(q, y)) - Sum6(s, Product(q, SwapAxes(y, 0, 1))) - Sum6(s, Product(q, SwapAxes(y, 0, 2)))
  {
    hide Sum6, Product, P3;
    var f, g, h := Product(q, y), Product(q, SwapAxes(y, 0, 1)), Product(q, SwapAxes(y, 0, 2));
    var two := Minus(f, g);
    Sum6Linear(s, 1.0, f, -1.0, g, two);
    forall x: seq<int> | |x| == 6
      ensures Product(q, P3(y, 0, 1, 2))(x) == 1.0 * two(x) + -1.0 * h(x)
    {
      ThreeTermElement(q, y, x, 0, 1, 2);
    }
    Sum6Linear(s, 1.0, two, -1.0, h, Product(q, P3(y, 0, 1, 2)));
  }

  lemma BlockSignMoves(s: System, q: Val, y: Val, i: int, j: int, k: int)
    requires Antisym(6, q, 0, 1) && Antisym(6, q, 0, 2)
    ensures BlockSum(s.nv, Product(q, SwapAxes(y, 0, 1)))(i, j, k) == -BlockSum(s.nv, Product(q, y))(j, i, k)
    ensures BlockSum(s.nv, Product(q, SwapAxes(y, 0, 2)))(i, j, k) == -BlockSum(s.nv, Product(q, y))(k, j, i)
  {
    var g, h := Elements(Product(q, SwapAxes(y, 0, 1)), i, j, k), Elements(Product(q, SwapAxes(y, 0, 2)), i, j, k);
    var f := Product(q, y);
    forall a, b, c
      ensures g(a, b, c) == -1.0 * Elements(f, j, i, k)(a, b, c) && h(a, b, c) == -1.0 * Elements(f, k, j, i)(a, b, c)
    {
      SignMoves(q, y, [i, j, k, a, b, c], 0, 1);
      SignMoves(q, y, [i, j, k, a, b, c], 0, 2);
      assert Exchange([i, j, k, a, b, c], 0, 1) == [j, i, k, a, b, c];
      assert Exchange([i, j, k, a, b, c], 0, 2) == [k, j, i, a, b, c];
    }
    Sum3Scale(0, s.nv, -1.0, g, Elements(f, j, i, k));
    Sum3Scale(0, s.nv, -1.0, h, Elements(f, k, j, i));
  }

  /** Nine permuted copies of a tensor weigh as much as nine times the tensor itself. */
  lemma FoldNine(s: System, q: Val, x: Val)
    requires FullyAntisym(q)
    ensures Sum6(s, Product(q, Antisymmetrized6(x))) == 9.0 * Sum6(s, Product(q, x))
  {
    var y := P3(x, 0, 1, 2);
    forall i, j, k
      ensures BlockSum(s.nv, Product(q, P3(y, 3, 4, 5)))(i, j, k) == 3.0 * BlockSum(s.nv, Product(q, y))(i, j, k)
    {
      FoldVirtual(s.nv, q, y, i, j, k);
    }
    Sum3Scale(0, s.no, 3.0, BlockSum(s.nv, Product(q, P3(y, 3, 4, 5))), BlockSum(s.nv, Product(q, y)));
    FoldOccupied(s, q, x);
  }

  lemma QuotientFullyAntisym(s: System, t: Amps)
    requires OccupiedPairs(s, t) && VirtualPairs(s, t)
    ensures FullyAntisym(Divide(W(s, t), s.Dijkabc()))
  {
    ConnectedTriplesAntisym(s, t);
    DenominatorsSymmetric(s);
    hide W, V, Antisym, SymmetricIn;
    QuotientKeepsAntisymmetry(6, W(s, t), s.Dijkabc(), 0, 1);
    QuotientKeepsAntisymmetry(6, W(s, t), s.Dijkabc(), 0, 2);
    QuotientKeepsAntisymmetry(6, W(s, t), s.Dijkabc(), 1, 2);
    QuotientKeepsAntisymmetry(6, W(s, t), s.Dijkabc(), 3, 4);
    QuotientKeepsAntisymmetry(6, W(s, t), s.Dijkabc(), 3, 5);
    QuotientKeepsAntisymmetry(6, W(s, t), s.Dijkabc(), 4, 5);
  }

  lemma DivByProduct(a: real, b: real, d: real)
    ensures Div(a * b, d) == Div(a, d) * b
    ensures Div(0.0, d) == 0.0
  {
  }

  lemma NaiveSplits(s: System, t: Amps)
    ensures var q := Divide(W(s, t), s.Dijkabc());
            Sum6(s, Summand(s, t)) == Sum6(s, Product(q, W(s, t))) + Sum6(s, Product(q, V(s, t)))
  {
    hide W, V, Sum6;
    var q := Divide(W(s, t), s.Dijkabc());
    var wPart, vPart := Product(q, W(s, t)), Product(q, V(s, t));
    forall x: seq<int> | |x| == 6
      ensures Summand(s, t)(x) == 1.0 * wPart(x) + 1.0 * vPart(x)
    {
      var w, v, d := W(s, t)(x), V(s, t)(x), s.Dijkabc()(x);
      DivByProduct(w, w + v, d);
      assert Div(w, d) * (w + v) == Div(w, d) * w + Div(w, d) * v;
    }
    Sum6Linear(s, 1.0, wPart, 1.0, vPart, Summand(s, t));
  }

  lemma SumOfProducts(s: System, q: Val, a: Val, b: Val)
    ensures Sum6(s, Product(q, Plus(a, b))) == Sum6(s, Product(q, a)) + Sum6(s, Product(q, b))
  {
    hide Sum6;
    Sum6Linear(s, 1.0, Product(q, a), 1.0, Product(q, b), Product(q, Plus(a, b)));
  }

  /** The fold is exact: one antisymmetrizer instead of two, 1/4 instead of 1/36. */
  lemma FoldIsExact(s: System, t: Amps)
    requires OccupiedPairs(s, t) && VirtualPairs(s, t)
    ensures Naive(s, t) == Folded(s, t)
  {
    hide Sum6, Xc, Xd, Antisymmetrized6, FullyAntisym;
    var q := Divide(W(s, t), s.Dijkabc());
    QuotientFullyAntisym(s, t);
    FoldNine(s, q, Xc(s, t));
    FoldNine(s, q, Xd(s, t));
    NaiveSplits(s, t);
    SumOfProducts(s, q, Xc(s, t), Xd(s, t));
  }

  // ---- ordered triples ------------------------------------------------------------------------

  lemma SummandSymmetric(s: System, t: Amps, x: seq<int>, p: nat, q: nat)
    requires |x| == 6 && Antisym(6, W(s, t), p, q) && Antisym(6, V(s, t), p, q) && SymmetricIn(6, s.Dijkabc(), p, q)
    ensures Summand(s, t)(Exchange(x, p, q)) == Summand(s, t)(x)
  {
    hide W, V;
    var y := Exchange(x, p, q);
    var w, v := W(s, t)(x), V(s, t)(x);
    assert W(s, t)(y) == -w && V(s, t)(y) == -v && s.Dijkabc()(y) == s.Dijkabc()(x);
    assert (-w) * (-w + -v) == w * (w + v);
  }

  /** The block energies are symmetric in i, j, k and vanish when two of them coincide. */
  lemma BlocksSymmetric(s: System, t: Amps, i: int, j: int, k: int)
    requires OccupiedPairs(s, t)
    ensures SymmetricTriple(BlockSum(s.nv, Summand(s, t)), i, j, k)
  {
    hide W, V, Summand, Antisym;
    OccupiedTriplesAntisym(s, t);
    var f := Summand(s, t);
    forall a, b, c
      ensures Elements(f, j, i, k)(a, b, c) == 1.0 * Elements(f, i, j, k)(a, b, c)
      ensures Elements(f, i, k, j)(a, b, c) == 1.0 * Elements(f, i, j, k)(a, b, c)
      ensures Elements(f, i, i, k)(a, b, c) == 0.0 * Elements(f, i, i, k)(a, b, c)
    {
      OccupiedExchanges(s, t, [i, j, k, a, b, c]);
      RepeatedIndexVanishes(s, t, i, k, a, b, c);
      assert Exchange([i, j, k, a, b, c], 0, 1) == [j, i, k, a, b, c];
      assert Exchange([i, j, k, a, b, c], 1, 2) == [i, k, j, a, b, c];
    }
    Sum3Scale(0, s.nv, 1.0, Elements(f, j, i, k), Elements(f, i, j, k));
    Sum3Scale(0, s.nv, 1.0, Elements(f, i, k, j), Elements(f, i, j, k));
    Sum3Scale(0, s.nv, 0.0, Elements(f, i, i, k), Elements(f, i, i, k));
  }

  lemma OccupiedExchanges(s: System, t: Amps, x: seq<int>)
    requires |x| == 6 && OccupiedAntisym(W(s, t)) && OccupiedAntisym(V(s, t))
    ensures Summand(s, t)(Exchange(x, 0, 1)) == Summand(s, t)(x) == Summand(s, t)(Exchange(x, 1, 2))
  {
    hide W, V, Summand;
    DenominatorsSymmetric(s);
    assert SymmetricIn(6, s.Dijkabc(), 1, 2);
    SummandSymmetric(s, t, x, 0, 1);
    SummandSymmetric(s, t, x, 1, 2);
  }

  lemma RepeatedIndexVanishes(s: System, t: Amps, i: int, k: int, a: int, b: int, c: int)
    requires Antisym(6, W(s, t), 0, 1)
    ensures Summand(s, t)([i, i, k, a, b, c]) == 0.0
  {
    hide W, V;
    var x := [i, i, k, a, b, c];
    assert Exchange(x, 0, 1) == x;
    assert W(s, t)(Exchange(x, 0, 1)) == -W(s, t)(x);
    var w, v := W(s, t)(x), V(s, t)(x);
    assert w * (w + v) == 0.0;
    DivByProduct(0.0, 1.0, s.Dijkabc()(x));
  }

  /** Visiting only i < j < k, with 1/6 in place of 1/36, gives the whole-tensor energy. */
  lemma OrderedTriplesSuffice(s: System, t: Amps)
    requires OccupiedPairs(s, t)
    ensures Naive(s, t) == OrderedTriples(0, s.no, BlockSum(s.nv, Summand(s, t))) / 6.0
  {
    forall i, j, k
      ensures SymmetricTriple(BlockSum(s.nv, Summand(s, t)), i, j, k)
    {
      BlocksSymmetric(s, t, i, j, k);
    }
    SymmetricTriplesSixfold(0, s.no, BlockSum(s.nv, Summand(s, t)));
  }
}
