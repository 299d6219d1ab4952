/** The hole and particle ladders, expanded: tau and the intermediates multiplied out, and the products of singles
    merged by the antisymmetry of the integrals. */
module CcsdLadders {
  import opened Sums
  import opened BoxSums
  import opened Einsum
  import opened EinsumSums
  import opened SpinOrbital
  import opened Ccsd
  import opened CcsdEquations
  import opened CcsdElements

  // ---- tau ------------------------------------------------------------------------------------

  /** Tau, the doubles and the product of singles as functions of the virtual pair, and of the occupied pair. */
  function TauOf(s: System, t: Amps, i: int, j: int): Pair { (e, f) => Tau(s, t)([i, j, e, f]) }
  function DoublesOf(t: Amps, i: int, j: int): Pair { (e, f) => t.t2([i, j, e, f]) }
  function ProductOf(t: Amps, i: int, j: int): Pair { (e, f) => t.t1([i, e]) * t.t1([j, f]) }

  function TauInto(s: System, t: Amps, a: int, b: int): Pair { (m, n) => Tau(s, t)([m, n, a, b]) }
  function DoublesInto(t: Amps, a: int, b: int): Pair { (m, n) => t.t2([m, n, a, b]) }
  function ProductInto(t: Amps, a: int, b: int): Pair { (m, n) => t.t1([m, a]) * t.t1([n, b]) }

  /** Integrals as functions of one pair. */
  function OovvOf(s: System, m: int, n: int): Pair { (e, f) => s.g([m, n, s.no + e, s.no + f]) }
  function OovvInto(s: System, e: int, f: int): Pair { (m, n) => s.g([m, n, s.no + e, s.no + f]) }
  function OoooInto(s: System, i: int, j: int): Pair { (m, n) => s.g([m, n, i, j]) }
  function VvvvOf(s: System, a: int, b: int): Pair { (e, f) => s.g([s.no + a, s.no + b, s.no + e, s.no + f]) }

  lemma TauOfAgainst(s: System, t: Amps, i: int, j: int, w: Pair)
    requires forall e, f :: w(e, f) == -w(f, e)
    ensures Box2(s.nv, s.nv, Times2(TauOf(s, t, i, j), w))
         == Box2(s.nv, s.nv, Times2(DoublesOf(t, i, j), w)) + 2.0 * Box2(s.nv, s.nv, Times2(ProductOf(t, i, j), w))
  {
    hide Box2, Tau, Times2;
    forall e, f
      ensures TauOf(s, t, i, j)(e, f) == DoublesOf(t, i, j)(e, f) + ProductOf(t, i, j)(e, f) - ProductOf(t, i, j)(f, e)
    {
      TauAt(s, t, i, j, e, f);
    }
    TauAgainst(s.nv, TauOf(s, t, i, j), DoublesOf(t, i, j), ProductOf(t, i, j), w);
  }

  lemma TauIntoAgainst(s: System, t: Amps, a: int, b: int, w: Pair)
    requires forall m, n :: w(m, n) == -w(n, m)
    ensures Box2(s.no, s.no, Times2(TauInto(s, t, a, b), w))
         == Box2(s.no, s.no, Times2(DoublesInto(t, a, b), w)) + 2.0 * Box2(s.no, s.no, Times2(ProductInto(t, a, b), w))
  {
    hide Box2, Tau, Times2;
    forall m, n
      ensures TauInto(s, t, a, b)(m, n)
           == DoublesInto(t, a, b)(m, n) + ProductInto(t, a, b)(m, n) - ProductInto(t, a, b)(n, m)
    {
      TauAt(s, t, m, n, a, b);
    }
    TauAgainst(s.no, TauInto(s, t, a, b), DoublesInto(t, a, b), ProductInto(t, a, b), w);
  }

  // ---- the hole ladder ------------------------------------------------------------------------

  function Wmnij1(s: System, t: Amps, i: int, j: int): Triple { (m, n, e) => t.t1([j, e]) * s.g([m, n, i, s.no + e]) }

  function Wmnij2(s: System, t: Amps, i: int, j: int): Quad {
    (m, n, e, f) => t.t2([i, j, e, f]) * s.g([m, n, s.no + e, s.no + f])
  }

  function Wmnij3(s: System, t: Amps, i: int, j: int): Quad {
    (m, n, e, f) => t.t1([i, e]) * t.t1([j, f]) * s.g([m, n, s.no + e, s.no + f])
  }

  lemma HoleSingles(s: System, t: Amps, m: int, n: int, i: int, j: int)
    ensures s.E("mnij", "e", "je", t.t1, "mnie", s.Block("ooov"))([m, n, i, j])
         == Sum(0, s.nv, Line(Wmnij1(s, t, i, j), m, n))
  {
    hide Look, Get, s.Block, Sum;
    var u, w := Op("je", t.t1), Op("mnie", s.Block("ooov"));
    forall env, e | Bound(env, "mnij" + "e", [m, n, i, j] + [e])
      ensures Line(Wmnij1(s, t, i, j), m, n)(e) == Both(env, u, w)
    {
      Reads(env, "mnij" + "e", [m, n, i, j] + [e]);
      Look2(env, "je", j, e);
      Look4(env, "mnie", m, n, i, e);
      BlocksRead(s, m, n, i, e);
    }
    OneSummed(s.Extents(), "mnij", "e", [m, n, i, j], u, w, Line(Wmnij1(s, t, i, j), m, n));
  }

  lemma HoleDoubles(s: System, t: Amps, m: int, n: int, i: int, j: int)
    ensures s.E("mnij", "ef", "ijef", Tau(s, t), "mnef", s.Block("oovv"))([m, n, i, j])
         == Box2(s.nv, s.nv, Times2(TauOf(s, t, i, j), OovvOf(s, m, n)))
  {
    hide Look, Get, s.Block, Box2, Tau;
    var u, w := Op("ijef", Tau(s, t)), Op("mnef", s.Block("oovv"));
    forall env, e, f | Bound(env, "mnij" + "ef", [m, n, i, j] + [e, f])
      ensures Times2(TauOf(s, t, i, j), OovvOf(s, m, n))(e, f) == Both(env, u, w)
    {
      Reads(env, "mnij" + "ef", [m, n, i, j] + [e, f]);
      Look4(env, "ijef", i, j, e, f);
      Look4(env, "mnef", m, n, e, f);
      BlocksRead(s, m, n, e, f);
    }
    TwoSummed(s.Extents(), "mnij", "ef", [m, n, i, j], u, w, Times2(TauOf(s, t, i, j), OovvOf(s, m, n)));
  }

  /** Tau against one pair of integrals, multiplied out. */
  lemma HoleDoublesElement(s: System, t: Amps, m: int, n: int, i: int, j: int)
    requires Fermionic(s.g)
    ensures Box2(s.nv, s.nv, Times2(TauOf(s, t, i, j), OovvOf(s, m, n)))
         == Box2(s.nv, s.nv, Corner(Wmnij2(s, t, i, j), m, n))
          + 2.0 * Box2(s.nv, s.nv, Corner(Wmnij3(s, t, i, j), m, n))
  {
    hide Box2, Tau, Antisym;
    forall e, f
      ensures OovvOf(s, m, n)(e, f) == -OovvOf(s, m, n)(f, e)
    {
      LastPair(s, m, n, s.no + f, s.no + e);
    }
    TauOfAgainst(s, t, i, j, OovvOf(s, m, n));
    Box2Scale(s.nv, s.nv, 1.0, Times2(DoublesOf(t, i, j), OovvOf(s, m, n)), Corner(Wmnij2(s, t, i, j), m, n));
    Box2Scale(s.nv, s.nv, 1.0, Times2(ProductOf(t, i, j), OovvOf(s, m, n)), Corner(Wmnij3(s, t, i, j), m, n));
  }

  /** Wmnij[mnij], with tau multiplied out. */
  lemma WmnijElement(s: System, t: Amps, m: int, n: int, i: int, j: int)
    requires Fermionic(s.g)
    ensures Wmnij(s, t)([m, n, i, j])
         == OoooInto(s, i, j)(m, n) + Sum(0, s.nv, Line(Wmnij1(s, t, i, j), m, n))
          - Sum(0, s.nv, Line(Wmnij1(s, t, j, i), m, n))
          + 0.25 * Box2(s.nv, s.nv, Corner(Wmnij2(s, t, i, j), m, n))
          + 0.5 * Box2(s.nv, s.nv, Corner(Wmnij3(s, t, i, j), m, n))
  {
    hide Box2, Sum, Tau, Ein, Fermionic, Times2, s.Block;
    HoleSingles(s, t, m, n, i, j);
    HoleSingles(s, t, m, n, j, i);
    assert Exchange([m, n, i, j], 2, 3) == [m, n, j, i];
    HoleDoubles(s, t, m, n, i, j);
    HoleDoublesElement(s, t, m, n, i, j);
    BlocksRead(s, m, n, i, j);
  }

  lemma WmnijAntisymFirst(s: System, t: Amps)
    requires Fermionic(s.g)
    ensures Antisym(4, Wmnij(s, t), 0, 1)
  {
    var n := s.Extents();
    var singles := s.E("mnij", "e", "je", t.t1, "mnie", s.Block("ooov"));
    var doubles := s.E("mnij", "ef", "ijef", Tau(s, t), "mnef", s.Block("oovv"));
    BlockAntisym(s, "oooo", 0, 1);
    BlockAntisym(s, "ooov", 0, 1);
    BlockAntisym(s, "oovv", 0, 1);
    EinInheritsAntisymmetry(n, "mnij", "e", Op("je", t.t1), Op("mnie", s.Block("ooov")), 0, 1, 0, 1);
    EinInheritsAntisymmetry(n, "mnij", "ef", Op("ijef", Tau(s, t)), Op("mnef", s.Block("oovv")), 0, 1, 0, 1);
    PKeepsAntisymmetry(4, singles, 2, 3, 0, 1);
    CombinationsKeepAntisymmetry(s.Block("oooo"), P(singles, 2, 3), 1.0, 0, 1);
    CombinationsKeepAntisymmetry(doubles, doubles, 0.25, 0, 1);
    CombinationsKeepAntisymmetry(Plus(s.Block("oooo"), P(singles, 2, 3)), Times(0.25, doubles), 1.0, 0, 1);
  }

  function WmnijInto(s: System, t: Amps, i: int, j: int): Pair { (m, n) => Wmnij(s, t)([m, n, i, j]) }

  lemma HoleLadderSum(s: System, t: Amps, i: int, j: int, a: int, b: int)
    ensures s.E("ijab", "mn", "mnab", Tau(s, t), "mnij", Wmnij(s, t))([i, j, a, b])
         == Box2(s.no, s.no, Times2(TauInto(s, t, a, b), WmnijInto(s, t, i, j)))
  {
    hide Look, Get, s.Block, Box2, Tau, Wmnij;
    var u, w := Op("mnab", Tau(s, t)), Op("mnij", Wmnij(s, t));
    forall env, m, n | Bound(env, "ijab" + "mn", [i, j, a, b] + [m, n])
      ensures Times2(TauInto(s, t, a, b), WmnijInto(s, t, i, j))(m, n) == Both(env, u, w)
    {
      Reads(env, "ijab" + "mn", [i, j, a, b] + [m, n]);
      Look4(env, "mnab", m, n, a, b);
      Look4(env, "mnij", m, n, i, j);
    }
    TwoSummed(s.Extents(), "ijab", "mn", [i, j, a, b], u, w, Times2(TauInto(s, t, a, b), WmnijInto(s, t, i, j)));
  }

  lemma HoleLadderSplits(s: System, t: Amps, i: int, j: int, a: int, b: int)
    requires Fermionic(s.g)
    ensures HoleLadder(s, t)([i, j, a, b])
         == Box2(s.no, s.no, Times2(DoublesInto(t, a, b), WmnijInto(s, t, i, j)))
          + 2.0 * Box2(s.no, s.no, Times2(ProductInto(t, a, b), WmnijInto(s, t, i, j)))
  {
    hide Box2, Tau, Ein, Wmnij, Times2;
    HoleLadderSum(s, t, i, j, a, b);
    WmnijAntisymFirst(s, t);
    forall m, n
      ensures WmnijInto(s, t, i, j)(m, n) == -WmnijInto(s, t, i, j)(n, m)
    {
      assert Exchange([n, m, i, j], 0, 1) == [m, n, i, j];
    }
    TauIntoAgainst(s, t, a, b, WmnijInto(s, t, i, j));
  }

  /** A two-index factor against Wmnij, term by term. */
  lemma AgainstWmnij(s: System, t: Amps, i: int, j: int, c: Pair)
    requires Fermionic(s.g)
    ensures Box2(s.no, s.no, Times2(c, WmnijInto(s, t, i, j)))
         == Box2(s.no, s.no, Times2(c, OoooInto(s, i, j)))
          + Box3(s.no, s.no, s.nv, PairBefore3(c, Wmnij1(s, t, i, j)))
          - Box3(s.no, s.no, s.nv, PairBefore3(c, Wmnij1(s, t, j, i)))
          + 0.25 * Box4(s.no, s.no, s.nv, s.nv, PairBefore4(c, Wmnij2(s, t, i, j)))
          + 0.5 * Box4(s.no, s.no, s.nv, s.nv, PairBefore4(c, Wmnij3(s, t, i, j)))
  {
    hide Box2, Box3, Box4, Sum, Wmnij, Times2, Fermionic;
    var w := WmnijInto(s, t, i, j);
    forall m, n
      ensures w(m, n)
           == OoooInto(s, i, j)(m, n) + Sum(0, s.nv, Line(Wmnij1(s, t, i, j), m, n))
            - Sum(0, s.nv, Line(Wmnij1(s, t, j, i), m, n))
            + 0.25 * Box2(s.nv, s.nv, Corner(Wmnij2(s, t, i, j), m, n))
            + 0.5 * Box2(s.nv, s.nv, Corner(Wmnij3(s, t, i, j), m, n))
    {
      WmnijElement(s, t, m, n, i, j);
    }
    SpreadPair(s.no, s.no, c, w, OoooInto(s, i, j), s.nv, Wmnij1(s, t, i, j), s.nv, Wmnij1(s, t, j, i),
               s.nv, s.nv, 0.25, Wmnij2(s, t, i, j), 0.5, Wmnij3(s, t, i, j));
  }

  /** The hole ladder, multiplied out. */
  lemma HoleLadderExpanded(s: System, t: Amps, i: int, j: int, a: int, b: int)
    requires Fermionic(s.g)
    ensures HoleLadder(s, t)([i, j, a, b])
         == Box2(s.no, s.no, Plain1(s, t, i, j, a, b)) + 2.0 * Box2(s.no, s.no, Plain2(s, t, i, j, a, b))
          + Box3(s.no, s.no, s.nv, Occupied4(s, t, i, j, a, b)) - Box3(s.no, s.no, s.nv, Occupied4(s, t, j, i, a, b))
          + 2.0 * Box3(s.no, s.no, s.nv, Occupied5(s, t, i, j, a, b))
          - 2.0 * Box3(s.no, s.no, s.nv, Occupied5(s, t, j, i, a, b))
          + 0.25 * Box4(s.no, s.no, s.nv, s.nv, Plain5(s, t, i, j, a, b))
          + 0.5 * Box4(s.no, s.no, s.nv, s.nv, Plain6(s, t, i, j, a, b))
          + 0.5 * Box4(s.no, s.no, s.nv, s.nv, Plain7(s, t, i, j, a, b))
          + Box4(s.no, s.no, s.nv, s.nv, Plain8(s, t, i, j, a, b))
  {
    hide Box2, Box3, Box4, Fermionic, HoleLadder;
    HoleLadderSplits(s, t, i, j, a, b);
    AgainstWmnij(s, t, i, j, DoublesInto(t, a, b));
    AgainstWmnij(s, t, i, j, ProductInto(t, a, b));
    HoleDoublesTerms(s, t, i, j, a, b);
    HoleDoublesProducts(s, t, i, j, a, b);
    HoleProductTerms(s, t, i, j, a, b);
    HoleProductProducts(s, t, i, j, a, b);
  }

  lemma HoleDoublesTerms(s: System, t: Amps, i: int, j: int, a: int, b: int)
    ensures var c := DoublesInto(t, a, b);
            && Box2(s.no, s.no, Times2(c, OoooInto(s, i, j))) == Box2(s.no, s.no, Plain1(s, t, i, j, a, b))
            && Box3(s.no, s.no, s.nv, PairBefore3(c, Wmnij1(s, t, i, j)))
                 == Box3(s.no, s.no, s.nv, Occupied4(s, t, i, j, a, b))
            && Box3(s.no, s.no, s.nv, PairBefore3(c, Wmnij1(s, t, j, i)))
                 == Box3(s.no, s.no, s.nv, Occupied4(s, t, j, i, a, b))
  {
    hide Box2, Box3;
    var c := DoublesInto(t, a, b);
    Box2Scale(s.no, s.no, 1.0, Times2(c, OoooInto(s, i, j)), Plain1(s, t, i, j, a, b));
    Box3Scale(s.no, s.no, s.nv, 1.0, PairBefore3(c, Wmnij1(s, t, i, j)), Occupied4(s, t, i, j, a, b));
    Box3Scale(s.no, s.no, s.nv, 1.0, PairBefore3(c, Wmnij1(s, t, j, i)), Occupied4(s, t, j, i, a, b));
  }

  lemma HoleDoublesProducts(s: System, t: Amps, i: int, j: int, a: int, b: int)
    ensures var c := DoublesInto(t, a, b);
            && Box4(s.no, s.no, s.nv, s.nv, PairBefore4(c, Wmnij2(s, t, i, j)))
                 == Box4(s.no, s.no, s.nv, s.nv, Plain5(s, t, i, j, a, b))
            && Box4(s.no, s.no, s.nv, s.nv, PairBefore4(c, Wmnij3(s, t, i, j)))
                 == Box4(s.no, s.no, s.nv, s.nv, Plain6(s, t, i, j, a, b))
  {
    hide Box4;
    var c := DoublesInto(t, a, b);
    Box4Scale(s.no, s.no, s.nv, s.nv, 1.0, PairBefore4(c, Wmnij2(s, t, i, j)), Plain5(s, t, i, j, a, b));
    Box4Scale(s.no, s.no, s.nv, s.nv, 1.0, PairBefore4(c, Wmnij3(s, t, i, j)), Plain6(s, t, i, j, a, b));
  }

  lemma HoleProductTerms(s: System, t: Amps, i: int, j: int, a: int, b: int)
    ensures var c := ProductInto(t, a, b);
            && Box2(s.no, s.no, Times2(c, OoooInto(s, i, j))) == Box2(s.no, s.no, Plain2(s, t, i, j, a, b))
            && Box3(s.no, s.no, s.nv, PairBefore3(c, Wmnij1(s, t, i, j)))
                 == Box3(s.no, s.no, s.nv, Occupied5(s, t, i, j, a, b))
            && Box3(s.no, s.no, s.nv, PairBefore3(c, Wmnij1(s, t, j, i)))
                 == Box3(s.no, s.no, s.nv, Occupied5(s, t, j, i, a, b))
  {
    hide Box2, Box3;
    var c := ProductInto(t, a, b);
    Box2Scale(s.no, s.no, 1.0, Times2(c, OoooInto(s, i, j)), Plain2(s, t, i, j, a, b));
    Box3Scale(s.no, s.no, s.nv, 1.0, PairBefore3(c, Wmnij1(s, t, i, j)), Occupied5(s, t, i, j, a, b));
    Box3Scale(s.no, s.no, s.nv, 1.0, PairBefore3(c, Wmnij1(s, t, j, i)), Occupied5(s, t, j, i, a, b));
  }

  lemma HoleProductProducts(s: System, t: Amps, i: int, j: int, a: int, b: int)
    ensures var c := ProductInto(t, a, b);
            && Box4(s.no, s.no, s.nv, s.nv, PairBefore4(c, Wmnij2(s, t, i, j)))
                 == Box4(s.no, s.no, s.nv, s.nv, Plain7(s, t, i, j, a, b))
            && Box4(s.no, s.no, s.nv, s.nv, PairBefore4(c, Wmnij3(s, t, i, j)))
                 == Box4(s.no, s.no, s.nv, s.nv, Plain8(s, t, i, j, a, b))
  {
    hide Box4;
    var c := ProductInto(t, a, b);
    Box4Scale(s.no, s.no, s.nv, s.nv, 1.0, PairBefore4(c, Wmnij2(s, t, i, j)), Plain7(s, t, i, j, a, b));
    Box4Scale(s.no, s.no, s.nv, s.nv, 1.0, PairBefore4(c, Wmnij3(s, t, i, j)), Plain8(s, t, i, j, a, b));
  }

  // ---- the particle ladder --------------------------------------------------------------------

  function Wabef1(s: System, t: Amps, a: int, b: int): Triple {
    (e, f, m) => t.t1([m, b]) * s.g([s.no + a, m, s.no + e, s.no + f])
  }

  function Wabef2(s: System, t: Amps, a: int, b: int): Quad {
    (e, f, m, n) => t.t2([m, n, a, b]) * s.g([m, n, s.no + e, s.no + f])
  }

  function Wabef3(s: System, t: Amps, a: int, b: int): Quad {
    (e, f, m, n) => t.t1([m, a]) * t.t1([n, b]) * s.g([m, n, s.no + e, s.no + f])
  }

  lemma ParticleSingles(s: System, t: Amps, a: int, b: int, e: int, f: int)
    ensures s.E("abef", "m", "mb", t.t1, "amef", s.Block("vovv"))([a, b, e, f])
         == Sum(0, s.no, Line(Wabef1(s, t, a, b), e, f))
  {
    hide Look, Get, s.Block, Sum;
    var u, w := Op("mb", t.t1), Op("amef", s.Block("vovv"));
    forall env, m | Bound(env, "abef" + "m", [a, b, e, f] + [m])
      ensures Line(Wabef1(s, t, a, b), e, f)(m) == Both(env, u, w)
    {
      Reads(env, "abef" + "m", [a, b, e, f] + [m]);
      Look2(env, "mb", m, b);
      Look4(env, "amef", a, m, e, f);
      BlocksRead(s, a, m, e, f);
    }
    OneSummed(s.Extents(), "abef", "m", [a, b, e, f], u, w, Line(Wabef1(s, t, a, b), e, f));
  }

  lemma ParticleDoubles(s: System, t: Amps, a: int, b: int, e: int, f: int)
    ensures s.E("abef", "mn", "mnab", Tau(s, t), "mnef", s.Block("oovv"))([a, b, e, f])
         == Box2(s.no, s.no, Times2(TauInto(s, t, a, b), OovvInto(s, e, f)))
  {
    hide Look, Get, s.Block, Box2, Tau;
    var u, w := Op("mnab", Tau(s, t)), Op("mnef", s.Block("oovv"));
    forall env, m, n | Bound(env, "abef" + "mn", [a, b, e, f] + [m, n])
      ensures Times2(TauInto(s, t, a, b), OovvInto(s, e, f))(m, n) == Both(env, u, w)
    {
      Reads(env, "abef" + "mn", [a, b, e, f] + [m, n]);
      Look4(env, "mnab", m, n, a, b);
      Look4(env, "mnef", m, n, e, f);
      BlocksRead(s, m, n, e, f);
    }
    TwoSummed(s.Extents(), "abef", "mn", [a, b, e, f], u, w, Times2(TauInto(s, t, a, b), OovvInto(s, e, f)));
  }

  lemma ParticleDoublesElement(s: System, t: Amps, a: int, b: int, e: int, f: int)
    requires Fermionic(s.g)
    ensures Box2(s.no, s.no, Times2(TauInto(s, t, a, b), OovvInto(s, e, f)))
         == Box2(s.no, s.no, Corner(Wabef2(s, t, a, b), e, f))
          + 2.0 * Box2(s.no, s.no, Corner(Wabef3(s, t, a, b), e, f))
  {
    hide Box2, Tau, Antisym;
    forall m, n
      ensures OovvInto(s, e, f)(m, n) == -OovvInto(s, e, f)(n, m)
    {
      FirstPair(s, n, m, s.no + e, s.no + f);
    }
    TauIntoAgainst(s, t, a, b, OovvInto(s, e, f));
    Box2Scale(s.no, s.no, 1.0, Times2(DoublesInto(t, a, b), OovvInto(s, e, f)), Corner(Wabef2(s, t, a, b), e, f));
    Box2Scale(s.no, s.no, 1.0, Times2(ProductInto(t, a, b), OovvInto(s, e, f)), Corner(Wabef3(s, t, a, b), e, f));
  }

  /** Wabef[abef], with tau multiplied out. */
  lemma WabefElement(s: System, t: Amps, a: int, b: int, e: int, f: int)
    requires Fermionic(s.g)
    ensures Wabef(s, t)([a, b, e, f])
         == VvvvOf(s, a, b)(e, f) + Sum(0, s.no, Line(Wabef1(s, t, b, a), e, f))
          - Sum(0, s.no, Line(Wabef1(s, t, a, b), e, f))
          + 0.25 * Box2(s.no, s.no, Corner(Wabef2(s, t, a, b), e, f))
          + 0.5 * Box2(s.no, s.no, Corner(Wabef3(s, t, a, b), e, f))
  {
    hide Box2, Sum, Tau, Ein, Fermionic, Times2, s.Block;
    ParticleSingles(s, t, a, b, e, f);
    ParticleSingles(s, t, b, a, e, f);
    assert Exchange([a, b, e, f], 0, 1) == [b, a, e, f];
    ParticleDoubles(s, t, a, b, e, f);
    ParticleDoublesElement(s, t, a, b, e, f);
    BlocksRead(s, a, b, e, f);
  }

  lemma WabefAntisymLast(s: System, t: Amps)
    requires Fermionic(s.g)
    ensures Antisym(4, Wabef(s, t), 2, 3)
  {
    var n := s.Extents();
    var singles := s.E("abef", "m", "mb", t.t1, "amef", s.Block("vovv"));
    var doubles := s.E("abef", "mn", "mnab", Tau(s, t), "mnef", s.Block("oovv"));
    BlockAntisym(s, "vvvv", 2, 3);
    BlockAntisym(s, "vovv", 2, 3);
    BlockAntisym(s, "oovv", 2, 3);
    EinInheritsAntisymmetry(n, "abef", "m", Op("mb", t.t1), Op("amef", s.Block("vovv")), 2, 3, 2, 3);
    EinInheritsAntisymmetry(n, "abef", "mn", Op("mnab", Tau(s, t)), Op("mnef", s.Block("oovv")), 2, 3, 2, 3);
    PKeepsAntisymmetry(4, singles, 0, 1, 2, 3);
    CombinationsKeepAntisymmetry(s.Block("vvvv"), P(singles, 0, 1), 1.0, 2, 3);
    CombinationsKeepAntisymmetry(doubles, doubles, 0.25, 2, 3);
    CombinationsKeepAntisymmetry(Minus(s.Block("vvvv"), P(singles, 0, 1)), Times(0.25, doubles), 1.0, 2, 3);
  }

  function WabefOf(s: System, t: Amps, a: int, b: int): Pair { (e, f) => Wabef(s, t)([a, b, e, f]) }

  lemma ParticleLadderSum(s: System, t: Amps, i: int, j: int, a: int, b: int)
    ensures s.E("ijab", "ef", "ijef", Tau(s, t), "abef", Wabef(s, t))([i, j, a, b])
         == Box2(s.nv, s.nv, Times2(TauOf(s, t, i, j), WabefOf(s, t, a, b)))
  {
    hide Look, Get, s.Block, Box2, Tau, Wabef;
    var u, w := Op("ijef", Tau(s, t)), Op("abef", Wabef(s, t));
    forall env, e, f | Bound(env, "ijab" + "ef", [i, j, a, b] + [e, f])
      ensures Times2(TauOf(s, t, i, j), WabefOf(s, t, a, b))(e, f) == Both(env, u, w)
    {
      Reads(env, "ijab" + "ef", [i, j, a, b] + [e, f]);
      Look4(env, "ijef", i, j, e, f);
      Look4(env, "abef", a, b, e, f);
    }
    TwoSummed(s.Extents(), "ijab", "ef", [i, j, a, b], u, w, Times2(TauOf(s, t, i, j), WabefOf(s, t, a, b)));
  }

  lemma ParticleLadderSplits(s: System, t: Amps, i: int, j: int, a: int, b: int)
    requires Fermionic(s.g)
    ensures ParticleLadder(s, t)([i, j, a, b])
         == Box2(s.nv, s.nv, Times2(DoublesOf(t, i, j), WabefOf(s, t, a, b)))
          + 2.0 * Box2(s.nv, s.nv, Times2(ProductOf(t, i, j), WabefOf(s, t, a, b)))
  {
    hide Box2, Tau, Ein, Wabef, Times2;
    ParticleLadderSum(s, t, i, j, a, b);
    WabefAntisymLast(s, t);
    forall e, f
      ensures WabefOf(s, t, a, b)(e, f) == -WabefOf(s, t, a, b)(f, e)
    {
      assert Exchange([a, b, f, e], 2, 3) == [a, b, e, f];
    }
    TauOfAgainst(s, t, i, j, WabefOf(s, t, a, b));
  }

  /** A two-index factor against Wabef, term by term. */
  lemma AgainstWabef(s: System, t: Amps, a: int, b: int, c: Pair)
    requires Fermionic(s.g)
    ensures Box2(s.nv, s.nv, Times2(c, WabefOf(s, t, a, b)))
         == Box2(s.nv, s.nv, Times2(c, VvvvOf(s, a, b)))
          + Box3(s.nv, s.nv, s.no, PairBefore3(c, Wabef1(s, t, b, a)))
          - Box3(s.nv, s.nv, s.no, PairBefore3(c, Wabef1(s, t, a, b)))
          + 0.25 * Box4(s.nv, s.nv, s.no, s.no, PairBefore4(c, Wabef2(s, t, a, b)))
          + 0.5 * Box4(s.nv, s.nv, s.no, s.no, PairBefore4(c, Wabef3(s, t, a, b)))
  {
    hide Box2, Box3, Box4, Sum, Wabef, Times2, Fermionic;
    var w := WabefOf(s, t, a, b);
    forall e, f
      ensures w(e, f)
           == VvvvOf(s, a, b)(e, f) + Sum(0, s.no, Line(Wabef1(s, t, b, a), e, f))
            - Sum(0, s.no, Line(Wabef1(s, t, a, b), e, f))
            + 0.25 * Box2(s.no, s.no, Corner(Wabef2(s, t, a, b), e, f))
            + 0.5 * Box2(s.no, s.no, Corner(Wabef3(s, t, a, b), e, f))
    {
      WabefElement(s, t, a, b, e, f);
    }
    SpreadPair(s.nv, s.nv, c, w, VvvvOf(s, a, b), s.no, Wabef1(s, t, b, a), s.no, Wabef1(s, t, a, b),
               s.no, s.no, 0.25, Wabef2(s, t, a, b), 0.5, Wabef3(s, t, a, b));
  }

  /** The particle ladder, multiplied out. */
  lemma ParticleLadderExpanded(s: System, t: Amps, i: int, j: int, a: int, b: int)
    requires Fermionic(s.g)
    ensures ParticleLadder(s, t)([i, j, a, b])
         == Box2(s.nv, s.nv, Plain3(s, t, i, j, a, b)) + 2.0 * Box2(s.nv, s.nv, Plain4(s, t, i, j, a, b))
          + Box3(s.nv, s.nv, s.no, Virtual4(s, t, i, j, b, a)) - Box3(s.nv, s.nv, s.no, Virtual4(s, t, i, j, a, b))
          + 2.0 * Box3(s.nv, s.nv, s.no, Virtual5(s, t, i, j, b, a))
          - 2.0 * Box3(s.nv, s.nv, s.no, Virtual5(s, t, i, j, a, b))
          + 0.25 * Box4(s.no, s.no, s.nv, s.nv, Plain5(s, t, i, j, a, b))
          + 0.5 * Box4(s.no, s.no, s.nv, s.nv, Plain7(s, t, i, j, a, b))
          + 0.5 * Box4(s.no, s.no, s.nv, s.nv, Plain6(s, t, i, j, a, b))
          + Box4(s.no, s.no, s.nv, s.nv, Plain8(s, t, i, j, a, b))
  {
    hide Box2, Box3, Box4, Fermionic, ParticleLadder;
    ParticleLadderSplits(s, t, i, j, a, b);
    AgainstWabef(s, t, a, b, DoublesOf(t, i, j));
    AgainstWabef(s, t, a, b, ProductOf(t, i, j));
    ParticleDoublesTerms(s, t, i, j, a, b);
    ParticleDoublesProducts(s, t, i, j, a, b);
    ParticleProductTerms(s, t, i, j, a, b);
    ParticleProductProducts(s, t, i, j, a, b);
  }

  lemma ParticleDoublesTerms(s: System, t: Amps, i: int, j: int, a: int, b: int)
    ensures var c := DoublesOf(t, i, j);
            && Box2(s.nv, s.nv, Times2(c, VvvvOf(s, a, b))) == Box2(s.nv, s.nv, Plain3(s, t, i, j, a, b))
            && Box3(s.nv, s.nv, s.no, PairBefore3(c, Wabef1(s, t, b, a)))
                 == Box3(s.nv, s.nv, s.no, Virtual4(s, t, i, j, b, a))
            && Box3(s.nv, s.nv, s.no, PairBefore3(c, Wabef1(s, t, a, b)))
                 == Box3(s.nv, s.nv, s.no, Virtual4(s, t, i, j, a, b))
  {
    hide Box2, Box3;
    var c := DoublesOf(t, i, j);
    Box2Scale(s.nv, s.nv, 1.0, Times2(c, VvvvOf(s, a, b)), Plain3(s, t, i, j, a, b));
    Box3Scale(s.nv, s.nv, s.no, 1.0, PairBefore3(c, Wabef1(s, t, b, a)), Virtual4(s, t, i, j, b, a));
    Box3Scale(s.nv, s.nv, s.no, 1.0, PairBefore3(c, Wabef1(s, t, a, b)), Virtual4(s, t, i, j, a, b));
  }

  lemma ParticleDoublesProducts(s: System, t: Amps, i: int, j: int, a: int, b: int)
    ensures var c := DoublesOf(t, i, j);
            && Box4(s.nv, s.nv, s.no, s.no, PairBefore4(c, Wabef2(s, t, a, b)))
                 == Box4(s.no, s.no, s.nv, s.nv, Plain5(s, t, i, j, a, b))
            && Box4(s.nv, s.nv, s.no, s.no, PairBefore4(c, Wabef3(s, t, a, b)))
                 == Box4(s.no, s.no, s.nv, s.nv, Plain7(s, t, i, j, a, b))
  {
    hide Box4;
    var c := DoublesOf(t, i, j);
    PairsExchange(s.nv, s.nv, s.no, s.no, PairBefore4(c, Wabef2(s, t, a, b)));
    Box4Scale(s.no, s.no, s.nv, s.nv, 1.0, Exchanged(PairBefore4(c, Wabef2(s, t, a, b))), Plain5(s, t, i, j, a, b));
    PairsExchange(s.nv, s.nv, s.no, s.no, PairBefore4(c, Wabef3(s, t, a, b)));
    Box4Scale(s.no, s.no, s.nv, s.nv, 1.0, Exchanged(PairBefore4(c, Wabef3(s, t, a, b))), Plain7(s, t, i, j, a, b));
  }

  lemma ParticleProductTerms(s: System, t: Amps, i: int, j: int, a: int, b: int)
    ensures var c := ProductOf(t, i, j);
            && Box2(s.nv, s.nv, Times2(c, VvvvOf(s, a, b))) == Box2(s.nv, s.nv, Plain4(s, t, i, j, a, b))
            && Box3(s.nv, s.nv, s.no, PairBefore3(c, Wabef1(s, t, b, a)))
                 == Box3(s.nv, s.nv, s.no, Virtual5(s, t, i, j, b, a))
            && Box3(s.nv, s.nv, s.no, PairBefore3(c, Wabef1(s, t, a, b)))
                 == Box3(s.nv, s.nv, s.no, Virtual5(s, t, i, j, a, b))
  {
    hide Box2, Box3;
    var c := ProductOf(t, i, j);
    Box2Scale(s.nv, s.nv, 1.0, Times2(c, VvvvOf(s, a, b)), Plain4(s, t, i, j, a, b));
    Box3Scale(s.nv, s.nv, s.no, 1.0, PairBefore3(c, Wabef1(s, t, b, a)), Virtual5(s, t, i, j, b, a));
    Box3Scale(s.nv, s.nv, s.no, 1.0, PairBefore3(c, Wabef1(s, t, a, b)), Virtual5(s, t, i, j, a, b));
  }

  lemma ParticleProductProducts(s: System, t: Amps, i: int, j: int, a: int, b: int)
    ensures var c := ProductOf(t, i, j);
            && Box4(s.nv, s.nv, s.no, s.no, PairBefore4(c, Wabef2(s, t, a, b)))
                 == Box4(s.no, s.no, s.nv, s.nv, Plain6(s, t, i, j, a, b))
            && Box4(s.nv, s.nv, s.no, s.no, PairBefore4(c, Wabef3(s, t, a, b)))
                 == Box4(s.no, s.no, s.nv, s.nv, Plain8(s, t, i, j, a, b))
  {
    hide Box4;
    var c := ProductOf(t, i, j);
    PairsExchange(s.nv, s.nv, s.no, s.no, PairBefore4(c, Wabef2(s, t, a, b)));
    Box4Scale(s.no, s.no, s.nv, s.nv, 1.0, Exchanged(PairBefore4(c, Wabef2(s, t, a, b))), Plain6(s, t, i, j, a, b));
    PairsExchange(s.nv, s.nv, s.no, s.no, PairBefore4(c, Wabef3(s, t, a, b)));
    Box4Scale(s.no, s.no, s.nv, s.nv, 1.0, Exchanged(PairBefore4(c, Wabef3(s, t, a, b))), Plain8(s, t, i, j, a, b));
  }

}
