/** The blocked triples: one v^3 block per occupied triple i < j < k, from views of the
    amplitudes and integrals, accumulated into one energy. */
module TriplesBlocked {
  import opened Sums
  import opened Einsum
  import opened Contractions
  import opened SpinOrbital
  import opened Ccsd
  import opened Triples
  import opened TriplesGraph

  /** The v^3 block of a rank-6 tensor. */
  function Slice(f: Val, i: int, j: int, k: int): Val { y => f([i, j, k] + y) }

  /** The three orderings of P(i/jk) and their signs. */
  function Perm(n: nat, i: int, j: int, k: int): (int, int, int, real)
    requires n < 3
  {
    match n
    case 0 => (i, j, k, 1.0)
    case 1 => (j, i, k, -1.0)
    case 2 => (k, j, i, -1.0)
  }

  /** The sum of the first n signed reorderings of a rank-6 tensor, at one block element. */
  function Reordered(n: nat, f: Val, i: int, j: int, k: int, y: seq<int>): real
    requires n <= 3
  {
    if n == 0 then 0.0
    else
      var (ii, jj, kk, sign) := Perm(n - 1, i, j, k);
      Reordered(n - 1, f, i, j, k, y) + sign * Slice(f, ii, jj, kk)(y)
  }

  lemma ReorderedIsP3(f: Val, i: int, j: int, k: int, y: seq<int>)
    ensures Reordered(3, f, i, j, k, y) == Slice(P3(f, 0, 1, 2), i, j, k)(y)
  {
    var x := [i, j, k] + y;
    assert Exchange(x, 0, 1) == [j, i, k] + y && Exchange(x, 0, 2) == [k, j, i] + y;
    hide Exchange, Slice;
    assert Reordered(1, f, i, j, k, y) == Slice(f, i, j, k)(y);
    assert Reordered(2, f, i, j, k, y) == Slice(f, i, j, k)(y) - Slice(f, j, i, k)(y);
  }

  // ---- views ------------------------------------------------------------------------------------

  lemma FixedOccupied(i: int, j: int, k: int, y: seq<int>)
    requires |y| == 3
    ensures forall c :: Get(Bind("abc", y) + map['i' := i, 'j' := j, 'k' := k], c)
              == Get(Bind("ijkabc", [i, j, k] + y), c)
  {
    hide Bind;
    assert "ijk" + "abc" == "ijkabc";
    BindFixed("ijk", [i, j, k], "abc", y, map['i' := i, 'j' := j, 'k' := k]);
  }

  /** A two-operand einsum of views is the block of the whole einsum. */
  lemma BlockOfEin(s: System, summed: string, a: Operand, b: Operand, a': Operand, b': Operand,
                   i: int, j: int, k: int, y: seq<int>)
    requires |y| == 3
    requires forall q | 0 <= q < |summed| :: summed[q] != 'i' && summed[q] != 'j' && summed[q] != 'k'
    requires var fixed := map['i' := i, 'j' := j, 'k' := k];
             forall e :: a.val(Look(e, a.idx)) == a'.val(Look(e + fixed, a'.idx))
                      && b.val(Look(e, b.idx)) == b'.val(Look(e + fixed, b'.idx))
    ensures Ein(s.Extents(), "abc", summed, [a, b])(y)
              == Slice(Ein(s.Extents(), "ijkabc", summed, [a', b']), i, j, k)(y)
  {
    hide Over, Bind, Look;
    var fixed := map['i' := i, 'j' := j, 'k' := k];
    forall e
      ensures Term(e, [a, b]) == Term(e + fixed, [a', b'])
    {
      Term2(e, a, b);
      Term2(e + fixed, a', b');
    }
    OverViews(s.Extents(), summed, Bind("abc", y), fixed, [a, b], [a', b']);
    FixedOccupied(i, j, k, y);
    OverAgrees(s.Extents(), summed, Bind("abc", y) + fixed, Bind("ijkabc", [i, j, k] + y), [a', b']);
  }

  lemma ConnectedBlock(s: System, t: Amps, i: int, j: int, k: int, y: seq<int>)
    requires |y| == 3
    ensures s.E("abc", "e", "ae", View(t.t2, 0, [j, k]), "ebc", View(s.Block("vovv"), 1, [i]))(y)
          - s.E("abc", "m", "mbc", View(t.t2, 0, [i]), "ma", View(s.Block("ovoo"), 2, [j, k]))(y)
         == Slice(Xc(s, t), i, j, k)(y)
  {
    hide Ein, View;
    ParticleBlock(s, t.t2, s.Block("vovv"), i, j, k, y);
    HoleBlock(s, t.t2, s.Block("ovoo"), i, j, k, y);
  }

  lemma ParticleBlock(s: System, t2: Val, g: Val, i: int, j: int, k: int, y: seq<int>)
    requires |y| == 3
    ensures s.E("abc", "e", "ae", View(t2, 0, [j, k]), "ebc", View(g, 1, [i]))(y)
         == Slice(s.E("ijkabc", "e", "jkae", t2, "eibc", g), i, j, k)(y)
  {
    var fixed := map['i' := i, 'j' := j, 'k' := k];
    hide Look, View, Ein, Slice;
    forall e
      ensures View(t2, 0, [j, k])(Look(e, "ae")) == t2(Look(e + fixed, "jkae"))
      ensures View(g, 1, [i])(Look(e, "ebc")) == g(Look(e + fixed, "eibc"))
    {
      ViewReads(t2, "ae", "jkae", 0, [j, k], "jk", e, fixed);
      ViewReads(g, "ebc", "eibc", 1, [i], "i", e, fixed);
    }
    BlockOfEin(s, "e", Op("ae", View(t2, 0, [j, k])), Op("ebc", View(g, 1, [i])), Op("jkae", t2), Op("eibc", g), i,
               j, k, y);
  }

  lemma HoleBlock(s: System, t2: Val, g: Val, i: int, j: int, k: int, y: seq<int>)
    requires |y| == 3
    ensures s.E("abc", "m", "mbc", View(t2, 0, [i]), "ma", View(g, 2, [j, k]))(y)
         == Slice(s.E("ijkabc", "m", "imbc", t2, "majk", g), i, j, k)(y)
  {
    var fixed := map['i' := i, 'j' := j, 'k' := k];
    hide Look, View, Ein, Slice;
    forall e
      ensures View(t2, 0, [i])(Look(e, "mbc")) == t2(Look(e + fixed, "imbc"))
      ensures View(g, 2, [j, k])(Look(e, "ma")) == g(Look(e + fixed, "majk"))
    {
      ViewReads(t2, "mbc", "imbc", 0, [i], "i", e, fixed);
      ViewReads(g, "ma", "majk", 2, [j, k], "jk", e, fixed);
    }
    BlockOfEin(s, "m", Op("mbc", View(t2, 0, [i])), Op("ma", View(g, 2, [j, k])), Op("imbc", t2), Op("majk", g), i,
               j, k, y);
  }

  lemma DisconnectedBlock(s: System, t: Amps, i: int, j: int, k: int, y: seq<int>)
    requires |y| == 3
    ensures s.E("abc", "", "a", View(t.t1, 0, [i]), "bc", View(s.Block("oovv"), 0, [j, k]))(y)
         == Slice(Xd(s, t), i, j, k)(y)
  {
    var fixed := map['i' := i, 'j' := j, 'k' := k];
    forall e
      ensures View(t.t1, 0, [i])(Look(e, "a")) == t.t1(Look(e + fixed, "ia"))
      ensures View(s.Block("oovv"), 0, [j, k])(Look(e, "bc")) == s.Block("oovv")(Look(e + fixed, "jkbc"))
    {
      hide Look, View;
      ViewReads(t.t1, "a", "ia", 0, [i], "i", e, fixed);
      ViewReads(s.Block("oovv"), "bc", "jkbc", 0, [j, k], "jk", e, fixed);
    }
    hide Ein, View, Look;
    BlockOfEin(s, "", Op("a", View(t.t1, 0, [i])), Op("bc", View(s.Block("oovv"), 0, [j, k])),
               Op("ia", t.t1), Op("jkbc", s.Block("oovv")), i, j, k, y);
  }

  /** P(a/bc) on a block is P(a/bc) on the whole tensor. */
  lemma SliceOfP3(f: Val, i: int, j: int, k: int, y: seq<int>)
    requires |y| == 3
    ensures P3(Slice(f, i, j, k), 0, 1, 2)(y) == Slice(P3(f, 3, 4, 5), i, j, k)(y)
  {
    var x := [i, j, k] + y;
    assert Exchange(x, 3, 4) == [i, j, k] + Exchange(y, 0, 1) && Exchange(x, 3, 5) == [i, j, k] + Exchange(y, 0, 2);
  }

  // ---- block energies -----------------------------------------------------------------------------

  lemma BlockEnergyNaive(s: System, t: Amps, i: int, j: int, k: int, wd: Val, v: Val)
    requires SameOn(3, wd, Slice(Divide(W(s, t), s.Dijkabc()), i, j, k))
    requires SameOn(3, v, Slice(Plus(W(s, t), V(s, t)), i, j, k))
    ensures Dot(s.Extents(), "abc", wd, v) == BlockSum(s.nv, Summand(s, t))(i, j, k)
  {
    hide W, V, Dot, Sum3, BlockSum;
    var q, y := Divide(W(s, t), s.Dijkabc()), Plus(W(s, t), V(s, t));
    DotOfBlocks(s, wd, v);
    BlockProduct(s.nv, q, y, i, j, k, wd, v);
    forall x: seq<int> | |x| == 6
      ensures Product(q, y)(x) == Summand(s, t)(x)
    {
      DivByProduct(W(s, t)(x), W(s, t)(x) + V(s, t)(x), s.Dijkabc()(x));
    }
    BlockSame(s.nv, Product(q, y), Summand(s, t), i, j, k);
  }

  lemma BlockEnergyFolded(s: System, t: Amps, i: int, j: int, k: int, wd: Val, x: Val)
    requires OccupiedPairs(s, t) && VirtualPairs(s, t)
    requires SameOn(3, wd, Slice(Divide(W(s, t), s.Dijkabc()), i, j, k))
    requires SameOn(3, x, Slice(Plus(P3(Xc(s, t), 0, 1, 2), P3(Xd(s, t), 0, 1, 2)), i, j, k))
    ensures 3.0 * Dot(s.Extents(), "abc", wd, x) == BlockSum(s.nv, Summand(s, t))(i, j, k)
  {
    hide Xc, Xd, Dot, Antisym, Sum3, BlockSum, P3, Slice, OccupiedPairs, VirtualPairs, Divide;
    var q := Divide(W(s, t), s.Dijkabc());
    var c, d := P3(Xc(s, t), 0, 1, 2), P3(Xd(s, t), 0, 1, 2);
    QuotientFullyAntisym(s, t);
    DotOfBlocks(s, wd, x);
    BlockProduct(s.nv, q, Plus(c, d), i, j, k, wd, x);
    FoldVirtual(s.nv, q, c, i, j, k);
    FoldVirtual(s.nv, q, d, i, j, k);
    BlockLinear(s.nv, Product(q, c), Product(q, d), Product(q, Plus(c, d)), i, j, k);
    SummandSplits(s, t, i, j, k);
  }

  lemma BlockProduct(nv: int, q: Val, y: Val, i: int, j: int, k: int, wd: Val, x: Val)
    requires SameOn(3, wd, Slice(q, i, j, k)) && SameOn(3, x, Slice(y, i, j, k))
    ensures Sum3(0, nv, Elements3(Product(wd, x))) == BlockSum(nv, Product(q, y))(i, j, k)
  {
    hide Sum3;
    forall a, b, c
      ensures Elements3(Product(wd, x))(a, b, c) == 1.0 * Elements(Product(q, y), i, j, k)(a, b, c)
    {
      assert [i, j, k] + [a, b, c] == [i, j, k, a, b, c];
      assert wd([a, b, c]) == Slice(q, i, j, k)([a, b, c]) && x([a, b, c]) == Slice(y, i, j, k)([a, b, c]);
    }
    Sum3Scale(0, nv, 1.0, Elements3(Product(wd, x)), Elements(Product(q, y), i, j, k));
  }

  lemma BlockLinear(nv: int, f: Val, g: Val, h: Val, i: int, j: int, k: int)
    requires forall x | |x| == 6 :: h(x) == f(x) + g(x)
    ensures BlockSum(nv, h)(i, j, k) == BlockSum(nv, f)(i, j, k) + BlockSum(nv, g)(i, j, k)
  {
    hide Sum3;
    Sum3Linear(0, nv, 1.0, Elements(f, i, j, k), 1.0, Elements(g, i, j, k), Elements(h, i, j, k));
  }

  lemma BlockSame(nv: int, f: Val, g: Val, i: int, j: int, k: int)
    requires SameOn(6, f, g)
    ensures BlockSum(nv, f)(i, j, k) == BlockSum(nv, g)(i, j, k)
  {
    hide Sum3;
    Sum3Scale(0, nv, 1.0, Elements(f, i, j, k), Elements(g, i, j, k));
  }

  lemma SummandSplits(s: System, t: Amps, i: int, j: int, k: int)
    ensures var q := Divide(W(s, t), s.Dijkabc());
            BlockSum(s.nv, Summand(s, t))(i, j, k)
            == BlockSum(s.nv, Product(q, W(s, t)))(i, j, k) + BlockSum(s.nv, Product(q, V(s, t)))(i, j, k)
  {
    hide W, V;
    var q := Divide(W(s, t), s.Dijkabc());
    forall x: seq<int> | |x| == 6
      ensures Summand(s, t)(x) == Product(q, W(s, t))(x) + Product(q, V(s, t))(x)
    {
      var w, v, d := W(s, t)(x), V(s, t)(x), s.Dijkabc()(x);
      DivByProduct(w, w + v, d);
      assert Div(w, d) * (w + v) == Div(w, d) * w + Div(w, d) * v;
    }
    BlockLinear(s.nv, Product(q, W(s, t)), Product(q, V(s, t)), Summand(s, t), i, j, k);
  }

  // ---- the blocked capture ---------------------------------------------------------------------------

  class Blocked {
    const s: System
    const t: Amps
    var xtot: Val
    var vtot: Val
    var w: Val
    var wd: Val
    var v: Val
    var d: Val
    var eTrip: real
    var e: real

    constructor (s: System, t: Amps)
      ensures this.s == s && this.t == t
    {
      this.s, this.t := s, t;
      xtot, vtot, w, wd, v, d, eTrip, e := Zeros(), Zeros(), Zeros(), Zeros(), Zeros(), Zeros(), 0.0, 0.0;
    }

    /** One replay leaves the oracle's energy, naive or folded, whatever scratch and energy held before. */
    method Replay(folded: bool)
      requires OccupiedPairs(s, t)
      requires folded ==> VirtualPairs(s, t)
      modifies this
      ensures e == Naive(s, t)
      ensures VirtualPairs(s, t) ==> e == Folded(s, t)
    {
      hide Naive, Folded, Summand, BlockSum, OccupiedPairs, VirtualPairs;
      OrderedTriplesSuffice(s, t);
      if VirtualPairs(s, t) {
        FoldIsExact(s, t);
      }
      ghost var f := BlockSum(s.nv, Summand(s, t));
      ghost var total := OrderedTriples(0, s.no, f);
      e := 0.0 * e;
      for i := 0 to s.no
        invariant 6.0 * e + OrderedTriples(i, s.no, f) == total
      {
        ghost var later := OrderedTriples(i + 1, s.no, f);
        for j := i + 1 to s.no
          invariant 6.0 * e + OrderedPairs(j, s.no, Plane(f, i)) + later == total
        {
          ghost var below := OrderedPairs(j + 1, s.no, Plane(f, i));
          for k := j + 1 to s.no
            invariant 6.0 * e + Sum(k, s.no, At(Plane(f, i), j)) + below + later == total
          {
            Triple(i, j, k, folded);
          }
        }
      }
    }

    /** One occupied triple adds a sixth of its block energy. */
    method Triple(i: int, j: int, k: int, folded: bool)
      requires folded ==> OccupiedPairs(s, t) && VirtualPairs(s, t)
      modifies this
      ensures 6.0 * e == 6.0 * old(e) + BlockSum(s.nv, Summand(s, t))(i, j, k)
    {
      hide Summand, BlockSum, OccupiedPairs, VirtualPairs, Dot, W, V, Xc, Xd, P3, Slice, Divide;
      Denominator(i, j, k);
      Connected(i, j, k);
      Disconnected(i, j, k);
      AntisymmetrizeConnected(i, j, k);
      if folded {
        AddFolded(i, j, k);
        eTrip := Dot(s.Extents(), "abc", wd, xtot);
        BlockEnergyFolded(s, t, i, j, k, wd, xtot);
        e := 0.5 * eTrip + e;
      } else {
        AddNaive(i, j, k);
        eTrip := Dot(s.Extents(), "abc", wd, v);
        BlockEnergyNaive(s, t, i, j, k, wd, v);
        e := 1.0 / 6.0 * eTrip + e;
      }
    }

    function Dv(): Val { y => if |y| == 3 then -(s.ev(y[0]) + s.ev(y[1]) + s.ev(y[2])) else 0.0 }

    function Ones(): Val { y => 1.0 }

    method Denominator(i: int, j: int, k: int)
      modifies this`d
      ensures SameOn(3, d, Slice(s.Dijkabc(), i, j, k))
    {
      d := Axpby(1.0, Dv(), 0.0, d);
      d := Axpby(s.eo(i) + s.eo(j) + s.eo(k), Ones(), 1.0, d);
    }

    method Connected(i: int, j: int, k: int)
      modifies this`xtot
      ensures SameOn(3, xtot, Slice(P3(Xc(s, t), 0, 1, 2), i, j, k))
    {
      hide Xc, P3, Slice;
      for n := 0 to 3
        invariant n > 0 ==> forall y | |y| == 3 :: xtot(y) == Reordered(n, Xc(s, t), i, j, k, y)
      {
        hide Perm;
        var (ii, jj, kk, sign) := Perm(n, i, j, k);
        AddConnected(ii, jj, kk, sign, n > 0);
      }
      forall y: seq<int> | |y| == 3
        ensures xtot(y) == Slice(P3(Xc(s, t), 0, 1, 2), i, j, k)(y)
      {
        hide Reordered;
        ReorderedIsP3(Xc(s, t), i, j, k, y);
      }
    }

    method AddConnected(i: int, j: int, k: int, sign: real, acc: bool)
      modifies this`xtot
      ensures forall y | |y| == 3 :: xtot(y) == (if acc then old(xtot)(y) else 0.0) + sign * Slice(Xc(s, t), i, j, k)(y)
    {
      hide Ein, View, Xc, Slice;
      xtot := EinInto(s.Extents(), "abc", "e",
                      [Op("ae", View(t.t2, 0, [j, k])), Op("ebc", View(s.Block("vovv"), 1, [i]))],
                      sign, if acc then 1.0 else 0.0, xtot);
      xtot := EinInto(s.Extents(), "abc", "m",
                      [Op("mbc", View(t.t2, 0, [i])), Op("ma", View(s.Block("ovoo"), 2, [j, k]))],
                      -sign, 1.0, xtot);
      forall y: seq<int> | |y| == 3
        ensures xtot(y) == (if acc then old(xtot)(y) else 0.0) + sign * Slice(Xc(s, t), i, j, k)(y)
      {
        ConnectedBlock(s, t, i, j, k, y);
        var u := s.E("abc", "e", "ae", View(t.t2, 0, [j, k]), "ebc", View(s.Block("vovv"), 1, [i]))(y);
        var v := s.E("abc", "m", "mbc", View(t.t2, 0, [i]), "ma", View(s.Block("ovoo"), 2, [j, k]))(y);
        assert sign * u + (-sign) * v == sign * (u - v);
      }
    }

    method Disconnected(i: int, j: int, k: int)
      modifies this`vtot
      ensures SameOn(3, vtot, Slice(P3(Xd(s, t), 0, 1, 2), i, j, k))
    {
      hide Xd, P3, Slice;
      for n := 0 to 3
        invariant n > 0 ==> forall y | |y| == 3 :: vtot(y) == Reordered(n, Xd(s, t), i, j, k, y)
      {
        hide Perm;
        var (ii, jj, kk, sign) := Perm(n, i, j, k);
        AddDisconnected(ii, jj, kk, sign, n > 0);
      }
      forall y: seq<int> | |y| == 3
        ensures vtot(y) == Slice(P3(Xd(s, t), 0, 1, 2), i, j, k)(y)
      {
        hide Reordered;
        ReorderedIsP3(Xd(s, t), i, j, k, y);
      }
    }

    method AddDisconnected(i: int, j: int, k: int, sign: real, acc: bool)
      modifies this`vtot
      ensures forall y | |y| == 3 :: vtot(y) == (if acc then old(vtot)(y) else 0.0) + sign * Slice(Xd(s, t), i, j, k)(y)
    {
      hide Ein, View, Xd, Slice;
      vtot := EinInto(s.Extents(), "abc", "", [Op("a", View(t.t1, 0, [i])), Op("bc", View(s.Block("oovv"), 0, [j, k]))],
                      sign, if acc then 1.0 else 0.0, vtot);
      forall y: seq<int> | |y| == 3
        ensures vtot(y) == (if acc then old(vtot)(y) else 0.0) + sign * Slice(Xd(s, t), i, j, k)(y)
      {
        DisconnectedBlock(s, t, i, j, k, y);
      }
    }

    /** The only permutation left: P(a/bc) on one v^3 block. */
    method PermuteBlock(dst: Val, src: Val) returns (r: Val)
      ensures SameOn(3, r, P3(src, 0, 1, 2))
    {
      hide Permute;
      r := Axpby(1.0, src, 0.0, dst);
      PermuteExchanges("bac", "abc", r, src, 1.0, -1.0, 0, 1);
      r := Permute("bac", "abc", r, src, 1.0, -1.0);
      PermuteExchanges("cba", "abc", r, src, 1.0, -1.0, 0, 2);
      r := Permute("cba", "abc", r, src, 1.0, -1.0);
    }

    method AntisymmetrizeConnected(i: int, j: int, k: int)
      requires SameOn(3, xtot, Slice(P3(Xc(s, t), 0, 1, 2), i, j, k)) && SameOn(3, d, Slice(s.Dijkabc(), i, j, k))
      modifies this`w, this`wd
      ensures SameOn(3, w, Slice(W(s, t), i, j, k)) && SameOn(3, wd, Slice(Divide(W(s, t), s.Dijkabc()), i, j, k))
    {
      w := PermuteBlock(w, xtot);
      SameBlockP3(xtot, P3(Xc(s, t), 0, 1, 2), i, j, k);
      assert SameOn(3, w, Slice(W(s, t), i, j, k));
      hide W, Xc;
      wd := DirectDivision(1.0, w, d, 0.0, wd);
    }

    method AddFolded(i: int, j: int, k: int)
      requires SameOn(3, xtot, Slice(P3(Xc(s, t), 0, 1, 2), i, j, k)) &&
               SameOn(3, vtot, Slice(P3(Xd(s, t), 0, 1, 2), i, j, k))
      modifies this`xtot
      ensures SameOn(3, xtot, Slice(Plus(P3(Xc(s, t), 0, 1, 2), P3(Xd(s, t), 0, 1, 2)), i, j, k))
    {
      hide P3, Xc, Xd;
      xtot := Axpby(1.0, vtot, 1.0, xtot);
    }

    method AddNaive(i: int, j: int, k: int)
      requires SameOn(3, w, Slice(W(s, t), i, j, k)) && SameOn(3, vtot, Slice(P3(Xd(s, t), 0, 1, 2), i, j, k))
      modifies this`v
      ensures SameOn(3, v, Slice(Plus(W(s, t), V(s, t)), i, j, k))
    {
      v := PermuteBlock(v, vtot);
      SameBlockP3(vtot, P3(Xd(s, t), 0, 1, 2), i, j, k);
      assert SameOn(3, v, Slice(V(s, t), i, j, k));
      hide W, V, Xd;
      v := Axpby(1.0, w, 1.0, v);
    }
  }

  lemma SameBlockP3(x: Val, f: Val, i: int, j: int, k: int)
    requires SameOn(3, x, Slice(f, i, j, k))
    ensures SameOn(3, P3(x, 0, 1, 2), Slice(P3(f, 3, 4, 5), i, j, k))
  {
    forall y: seq<int> | |y| == 3
      ensures P3(x, 0, 1, 2)(y) == Slice(P3(f, 3, 4, 5), i, j, k)(y)
    {
      SliceOfP3(f, i, j, k, y);
      assert x(Exchange(y, 0, 1)) == Slice(f, i, j, k)(Exchange(y, 0, 1));
      assert x(Exchange(y, 0, 2)) == Slice(f, i, j, k)(Exchange(y, 0, 2));
    }
  }
}
