/** The correlation energy as a sum over ordered pairs. */
module CcsdEnergy {
  import opened Sums
  import opened BoxSums
  import opened Einsum
  import opened EinsumSums
  import opened SpinOrbital
  import opened Ccsd
  import opened CcsdElements
  import opened CcsdLadders

  function Doubles(s: System, t: Amps): Quad {
    (i, j, a, b) => s.g([i, j, s.no + a, s.no + b]) * t.t2([i, j, a, b])
  }

  function Products(s: System, t: Amps): Quad {
    (i, j, a, b) => s.g([i, j, s.no + a, s.no + b]) * (t.t1([i, a]) * t.t1([j, b]))
  }

  /** <ij||ab> times the antisymmetrized amplitudes. */
  function PairTerm(s: System, t: Amps): Quad {
    (i, j, a, b) => s.g([i, j, s.no + a, s.no + b])
                    * (t.t2([i, j, a, b]) + t.t1([i, a]) * t.t1([j, b]) - t.t1([i, b]) * t.t1([j, a]))
  }

  lemma DotIsSum(s: System, t: Amps)
    ensures Dot(s.Extents(), "ijab", s.Block("oovv"), t.t2) == Box4(s.no, s.no, s.nv, s.nv, Doubles(s, t))
  {
    hide Box4, Over, Term, Look, Get, s.Block;
    var ops := [Op("ijab", s.Block("oovv")), Op("ijab", t.t2)];
    forall env, i, j, a, b | Bound(env, "" + "ijab", [] + [i, j, a, b])
      ensures Doubles(s, t)(i, j, a, b) == Term(env, ops)
    {
      Reads(env, "" + "ijab", [] + [i, j, a, b]);
      Look4(env, "ijab", i, j, a, b);
      BlocksRead(s, i, j, a, b);
      Term2(env, ops[0], ops[1]);
    }
    OverFour(s.Extents(), "", [], "ijab", map[], ops, Doubles(s, t));
  }

  lemma ProductIsSum(s: System, t: Amps)
    ensures Over(s.Extents(), "ijab", map[], [Op("ijab", s.Block("oovv")), Op("ia", t.t1), Op("jb", t.t1)])
         == Box4(s.no, s.no, s.nv, s.nv, Products(s, t))
  {
    hide Box4, Over, Term, Look, Get, s.Block;
    var ops := [Op("ijab", s.Block("oovv")), Op("ia", t.t1), Op("jb", t.t1)];
    forall env, i, j, a, b | Bound(env, "" + "ijab", [] + [i, j, a, b])
      ensures Products(s, t)(i, j, a, b) == Term(env, ops)
    {
      Reads(env, "" + "ijab", [] + [i, j, a, b]);
      Look4(env, "ijab", i, j, a, b);
      Look2(env, "ia", i, a);
      Look2(env, "jb", j, b);
      BlocksRead(s, i, j, a, b);
      Term3(env, ops[0], ops[1], ops[2]);
    }
    OverFour(s.Extents(), "", [], "ijab", map[], ops, Products(s, t));
  }

  /** The antisymmetrized amplitudes of one occupied pair. */
  function Amplitudes(t: Amps, i: int, j: int): Pair {
    (a, b) => t.t2([i, j, a, b]) + t.t1([i, a]) * t.t1([j, b]) - t.t1([i, b]) * t.t1([j, a])
  }

  /** For one occupied pair, the antisymmetrized product weighs twice as much as the product. */
  lemma PairWeighs(s: System, t: Amps, i: int, j: int)
    requires Fermionic(s.g)
    ensures Box2(s.nv, s.nv, Corner(PairTerm(s, t), i, j))
         == Box2(s.nv, s.nv, Corner(Doubles(s, t), i, j)) + 2.0 * Box2(s.nv, s.nv, Corner(Products(s, t), i, j))
  {
    hide Box2, Antisym;
    var w, d, p, tau := OovvOf(s, i, j), DoublesOf(t, i, j), ProductOf(t, i, j), Amplitudes(t, i, j);
    forall a, b
      ensures w(a, b) == -w(b, a) && tau(a, b) == d(a, b) + p(a, b) - p(b, a)
    {
      LastPair(s, i, j, s.no + b, s.no + a);
    }
    TauAgainst(s.nv, tau, d, p, w);
    Box2Scale(s.nv, s.nv, 1.0, Times2(tau, w), Corner(PairTerm(s, t), i, j));
    Box2Scale(s.nv, s.nv, 1.0, Times2(d, w), Corner(Doubles(s, t), i, j));
    Box2Scale(s.nv, s.nv, 1.0, Times2(p, w), Corner(Products(s, t), i, j));
  }

  /** The energy is a quarter of the sum over all indices. */
  lemma EnergyIsQuarter(s: System, t: Amps)
    requires Fermionic(s.g)
    ensures Energy(s, t) == 0.25 * Box4(s.no, s.no, s.nv, s.nv, PairTerm(s, t))
  {
    hide Box2, Box4, Dot, Over, Fermionic;
    var c := Corners(s.nv, s.nv, PairTerm(s, t));
    var d, p := Corners(s.nv, s.nv, Doubles(s, t)), Corners(s.nv, s.nv, Products(s, t));
    DotIsSum(s, t);
    ProductIsSum(s, t);
    forall i, j
      ensures c(i, j) == 1.0 * d(i, j) + 2.0 * p(i, j)
    {
      PairWeighs(s, t, i, j);
    }
    Box2Linear(s.no, s.no, 1.0, d, 2.0, p, c);
    Box4IsPairs(s.no, s.no, s.nv, s.nv, PairTerm(s, t));
    Box4IsPairs(s.no, s.no, s.nv, s.nv, Doubles(s, t));
    Box4IsPairs(s.no, s.no, s.nv, s.nv, Products(s, t));
  }

  /** Both signs change together, so that a term does not depend on the order in either pair. */
  lemma PairTermSymmetric(s: System, t: Amps, i: int, j: int, a: int, b: int)
    requires Fermionic(s.g) && PairAntisym(t.t2)
    ensures PairTerm(s, t)(i, j, b, a) == PairTerm(s, t)(i, j, a, b) == PairTerm(s, t)(j, i, a, b)
    ensures PairTerm(s, t)(i, j, a, a) == PairTerm(s, t)(i, i, a, b) == 0.0
  {
    PairTermExchanged(s, t, i, j, a, b);
    PairTermExchanged(s, t, i, j, a, a);
    PairTermExchanged(s, t, i, i, a, b);
    PairTermVanishes(s, t, i, j, a, b);
  }

  lemma PairTermExchanged(s: System, t: Amps, i: int, j: int, a: int, b: int)
    requires Fermionic(s.g) && PairAntisym(t.t2)
    ensures PairTerm(s, t)(i, j, b, a) == PairTerm(s, t)(i, j, a, b) == PairTerm(s, t)(j, i, a, b)
  {
    LastPair(s, i, j, s.no + a, s.no + b);
    FirstPair(s, i, j, s.no + a, s.no + b);
    DoublesExchange(t, i, j, a, b);
    hide Antisym;
    var g, d := s.g([i, j, s.no + a, s.no + b]), t.t2([i, j, a, b]);
    var p, q := t.t1([i, a]) * t.t1([j, b]), t.t1([i, b]) * t.t1([j, a]);
    BothSigns(g, d, p, q);
  }

  lemma DoublesExchange(t: Amps, i: int, j: int, a: int, b: int)
    requires PairAntisym(t.t2)
    ensures t.t2([j, i, a, b]) == t.t2([i, j, b, a]) == -t.t2([i, j, a, b])
  {
    assert Exchange([i, j, a, b], 0, 1) == [j, i, a, b] && Exchange([i, j, a, b], 2, 3) == [i, j, b, a];
  }

  lemma BothSigns(g: real, d: real, p: real, q: real)
    ensures -g * (-d + q - p) == g * (d + p - q)
  {
  }

  lemma PairTermVanishes(s: System, t: Amps, i: int, j: int, a: int, b: int)
    requires Fermionic(s.g) && PairAntisym(t.t2)
    ensures PairTerm(s, t)(i, j, a, a) == PairTerm(s, t)(i, i, a, b) == 0.0
  {
    LastPair(s, i, j, s.no + a, s.no + a);
    FirstPair(s, i, i, s.no + a, s.no + b);
    hide Antisym;
    assert s.g([i, j, s.no + a, s.no + a]) == 0.0 && s.g([i, i, s.no + a, s.no + b]) == 0.0;
  }

  /** What one occupied pair contributes: its virtual pairs a < b. */
  function OfPair(s: System, t: Amps): Pair { (i, j) => OrderedPairs(0, s.nv, Corner(PairTerm(s, t), i, j)) }

  /** The energy is the sum over i < j and a < b of <ij||ab> times the antisymmetrized amplitudes. */
  lemma EnergyOverPairs(s: System, t: Amps)
    requires Fermionic(s.g) && PairAntisym(t.t2)
    ensures Energy(s, t) == OrderedPairs(0, s.no, OfPair(s, t))
  {
    hide Energy, Box4, Sum2, OrderedPairs, Fermionic, PairAntisym, PairTerm;
    EnergyIsQuarter(s, t);
    Box4IsPairs(s.no, s.no, s.nv, s.nv, PairTerm(s, t));
    var c := Corners(s.nv, s.nv, PairTerm(s, t));
    forall i, j
      ensures c(i, j) == 2.0 * OfPair(s, t)(i, j)
    {
      InnerPairs(s, t, i, j);
    }
    Box2Scale(s.no, s.no, 2.0, c, OfPair(s, t));
    forall i, j
      ensures SymmetricPair(OfPair(s, t), i, j)
    {
      OuterPairs(s, t, i, j);
    }
    SymmetricPairsTwice(0, s.no, OfPair(s, t));
    Box2Is(s.no, s.no, OfPair(s, t));
  }

  lemma InnerPairs(s: System, t: Amps, i: int, j: int)
    requires Fermionic(s.g) && PairAntisym(t.t2)
    ensures Box2(s.nv, s.nv, Corner(PairTerm(s, t), i, j)) == 2.0 * OfPair(s, t)(i, j)
  {
    hide Sum2, OrderedPairs, Fermionic, PairAntisym, PairTerm;
    forall a, b
      ensures SymmetricPair(Corner(PairTerm(s, t), i, j), a, b)
    {
      PairTermSymmetric(s, t, i, j, a, b);
    }
    SymmetricPairsTwice(0, s.nv, Corner(PairTerm(s, t), i, j));
    Box2Is(s.nv, s.nv, Corner(PairTerm(s, t), i, j));
  }

  lemma OuterPairs(s: System, t: Amps, i: int, j: int)
    requires Fermionic(s.g) && PairAntisym(t.t2)
    ensures SymmetricPair(OfPair(s, t), i, j)
  {
    hide Box2, OrderedPairs, Fermionic, PairAntisym, PairTerm;
    InnerPairs(s, t, i, j);
    InnerPairs(s, t, j, i);
    InnerPairs(s, t, i, i);
    forall a, b
      ensures Corner(PairTerm(s, t), i, j)(a, b) == 1.0 * Corner(PairTerm(s, t), j, i)(a, b)
      ensures Corner(PairTerm(s, t), i, i)(a, b) == 0.0 * Corner(PairTerm(s, t), i, i)(a, b)
    {
      PairTermSymmetric(s, t, i, j, a, b);
    }
    Box2Scale(s.nv, s.nv, 1.0, Corner(PairTerm(s, t), i, j), Corner(PairTerm(s, t), j, i));
    Box2Scale(s.nv, s.nv, 0.0, Corner(PairTerm(s, t), i, i), Corner(PairTerm(s, t), i, i));
  }
}
