/** The factored residual of the oracle is the right-hand side of the written-out doubles equation, and one iteration
    solves both equations with the diagonal energies divided out. */
module CcsdDoubles {
  import opened Sums
  import opened BoxSums
  import opened Einsum
  import opened EinsumSums
  import opened SpinOrbital
  import opened Ccsd
  import opened CcsdEquations
  import opened CcsdElements
  import opened CcsdLadders
  import CcsdSingles

  // ---- the ring -------------------------------------------------------------------------------

  function OvvoAt(s: System, b: int, j: int): Pair { (m, e) => s.g([m, s.no + b, s.no + e, j]) }

  function Wmbej1(s: System, t: Amps, b: int, j: int): Triple {
    (m, e, f) => t.t1([j, f]) * s.g([m, s.no + b, s.no + e, s.no + f])
  }

  function Wmbej2(s: System, t: Amps, b: int, j: int): Triple { (m, e, n) => t.t1([n, b]) * s.g([m, n, s.no + e, j]) }

  function Wmbej3(s: System, t: Amps, b: int, j: int): Quad {
    (m, e, n, f) => t.t2([j, n, f, b]) * s.g([m, n, s.no + e, s.no + f])
  }

  function Wmbej4(s: System, t: Amps, b: int, j: int): Quad {
    (m, e, n, f) => t.t1([j, f]) * t.t1([n, b]) * s.g([m, n, s.no + e, s.no + f])
  }

  function JnfbOovv(s: System, t: Amps, b: int, j: int): Quad {
    (m, e, n, f) => Jnfb(s, t)([j, n, f, b]) * s.g([m, n, s.no + e, s.no + f])
  }

  lemma RingParticle(s: System, t: Amps, m: int, b: int, e: int, j: int)
    ensures s.E("mbej", "f", "jf", t.t1, "mbef", s.Block("ovvv"))([m, b, e, j])
         == Sum(0, s.nv, Line(Wmbej1(s, t, b, j), m, e))
  {
    hide Look, Get, s.Block, Sum;
    var u, w := Op("jf", t.t1), Op("mbef", s.Block("ovvv"));
    forall env, f | Bound(env, "mbej" + "f", [m, b, e, j] + [f])
      ensures Line(Wmbej1(s, t, b, j), m, e)(f) == Both(env, u, w)
    {
      Reads(env, "mbej" + "f", [m, b, e, j] + [f]);
      Look2(env, "jf", j, f);
      Look4(env, "mbef", m, b, e, f);
      BlocksRead(s, m, b, e, f);
    }
    OneSummed(s.Extents(), "mbej", "f", [m, b, e, j], u, w, Line(Wmbej1(s, t, b, j), m, e));
  }

  lemma RingHole(s: System, t: Amps, m: int, b: int, e: int, j: int)
    ensures s.E("mbej", "n", "nb", t.t1, "mnej", s.Block("oovo"))([m, b, e, j])
         == Sum(0, s.no, Line(Wmbej2(s, t, b, j), m, e))
  {
    hide Look, Get, s.Block, Sum;
    var u, w := Op("nb", t.t1), Op("mnej", s.Block("oovo"));
    forall env, n | Bound(env, "mbej" + "n", [m, b, e, j] + [n])
      ensures Line(Wmbej2(s, t, b, j), m, e)(n) == Both(env, u, w)
    {
      Reads(env, "mbej" + "n", [m, b, e, j] + [n]);
      Look2(env, "nb", n, b);
      Look4(env, "mnej", m, n, e, j);
      BlocksRead(s, m, n, e, j);
    }
    OneSummed(s.Extents(), "mbej", "n", [m, b, e, j], u, w, Line(Wmbej2(s, t, b, j), m, e));
  }

  lemma RingPair(s: System, t: Amps, m: int, b: int, e: int, j: int)
    ensures s.E("mbej", "nf", "jnfb", Jnfb(s, t), "mnef", s.Block("oovv"))([m, b, e, j])
         == Box2(s.no, s.nv, Corner(JnfbOovv(s, t, b, j), m, e))
  {
    hide Look, Get, s.Block, Box2, Jnfb;
    var u, w := Op("jnfb", Jnfb(s, t)), Op("mnef", s.Block("oovv"));
    forall env, n, f | Bound(env, "mbej" + "nf", [m, b, e, j] + [n, f])
      ensures Corner(JnfbOovv(s, t, b, j), m, e)(n, f) == Both(env, u, w)
    {
      Reads(env, "mbej" + "nf", [m, b, e, j] + [n, f]);
      Look4(env, "jnfb", j, n, f, b);
      Look4(env, "mnef", m, n, e, f);
      BlocksRead(s, m, n, e, f);
    }
    TwoSummed(s.Extents(), "mbej", "nf", [m, b, e, j], u, w, Corner(JnfbOovv(s, t, b, j), m, e));
  }

  lemma JnfbAt(s: System, t: Amps, j: int, n: int, f: int, b: int)
    ensures Jnfb(s, t)([j, n, f, b]) == 0.5 * t.t2([j, n, f, b]) + t.t1([j, f]) * t.t1([n, b])
  {
    hide Ein, Look, Get;
    var u, w := Op("jf", t.t1), Op("nb", t.t1);
    forall env | Bound(env, "jnfb", [j, n, f, b])
      ensures t.t1([j, f]) * t.t1([n, b]) == Both(env, u, w)
    {
      Reads(env, "jnfb", [j, n, f, b]);
      Look2(env, "jf", j, f);
      Look2(env, "nb", n, b);
    }
    NoneSummed(s.Extents(), "jnfb", [j, n, f, b], u, w, t.t1([j, f]) * t.t1([n, b]));
  }

  /** Wmbej[mbej], with its stored combination of amplitudes multiplied out. */
  lemma WmbejElement(s: System, t: Amps, m: int, b: int, e: int, j: int)
    ensures Wmbej(s, t)([m, b, e, j])
         == OvvoAt(s, b, j)(m, e) + Sum(0, s.nv, Line(Wmbej1(s, t, b, j), m, e))
          - Sum(0, s.no, Line(Wmbej2(s, t, b, j), m, e))
          + -0.5 * Box2(s.no, s.nv, Corner(Wmbej3(s, t, b, j), m, e))
          + -1.0 * Box2(s.no, s.nv, Corner(Wmbej4(s, t, b, j), m, e))
  {
    hide Box2, Sum, Jnfb, Ein, s.Block;
    RingParticle(s, t, m, b, e, j);
    RingHole(s, t, m, b, e, j);
    RingPair(s, t, m, b, e, j);
    BlocksRead(s, m, b, e, j);
    forall n, f
      ensures Corner(JnfbOovv(s, t, b, j), m, e)(n, f)
           == 0.5 * Corner(Wmbej3(s, t, b, j), m, e)(n, f) + 1.0 * Corner(Wmbej4(s, t, b, j), m, e)(n, f)
    {
      JnfbAt(s, t, j, n, f, b);
    }
    Box2Linear(s.no, s.nv, 0.5, Corner(Wmbej3(s, t, b, j), m, e), 1.0, Corner(Wmbej4(s, t, b, j), m, e),
               Corner(JnfbOovv(s, t, b, j), m, e));
  }

  function DoublesAt(t: Amps, i: int, a: int): Pair { (m, e) => t.t2([i, m, a, e]) }

  function WmbejAt(s: System, t: Amps, b: int, j: int): Pair { (m, e) => Wmbej(s, t)([m, b, e, j]) }

  lemma RingSum(s: System, t: Amps, i: int, j: int, a: int, b: int)
    ensures s.E("ijab", "me", "imae", t.t2, "mbej", Wmbej(s, t))([i, j, a, b])
         == Box2(s.no, s.nv, Times2(DoublesAt(t, i, a), WmbejAt(s, t, b, j)))
  {
    hide Look, Get, s.Block, Box2, Wmbej;
    var u, w := Op("imae", t.t2), Op("mbej", Wmbej(s, t));
    forall env, m, e | Bound(env, "ijab" + "me", [i, j, a, b] + [m, e])
      ensures Times2(DoublesAt(t, i, a), WmbejAt(s, t, b, j))(m, e) == Both(env, u, w)
    {
      Reads(env, "ijab" + "me", [i, j, a, b] + [m, e]);
      Look4(env, "imae", i, m, a, e);
      Look4(env, "mbej", m, b, e, j);
    }
    TwoSummed(s.Extents(), "ijab", "me", [i, j, a, b], u, w, Times2(DoublesAt(t, i, a), WmbejAt(s, t, b, j)));
  }

  /** The three-operand product of singles and an integral. */
  lemma RingProduct(s: System, t: Amps, i: int, j: int, a: int, b: int)
    ensures Ein(s.Extents(), "ijab", "me", [Op("ie", t.t1), Op("ma", t.t1), Op("mbej", s.Block("ovvo"))])([i, j, a, b])
         == Box2(s.no, s.nv, Ring6(s, t, i, j, a, b))
  {
    hide Box2, Over, Term, Look, Get, Bind, s.Block;
    var ops := [Op("ie", t.t1), Op("ma", t.t1), Op("mbej", s.Block("ovvo"))];
    var x := [i, j, a, b];
    forall env, m, e | Bound(env, "ijab" + "me", x + [m, e])
      ensures Ring6(s, t, i, j, a, b)(m, e) == Term(env, ops)
    {
      Reads(env, "ijab" + "me", x + [m, e]);
      Look2(env, "ie", i, e);
      Look2(env, "ma", m, a);
      Look4(env, "mbej", m, b, e, j);
      BlocksRead(s, m, b, e, j);
      Term3(env, ops[0], ops[1], ops[2]);
    }
    BindBinds("ijab", x);
    OverTwo(s.Extents(), "ijab", x, "me", Bind("ijab", x), ops, Ring6(s, t, i, j, a, b));
  }

  /** The ring, multiplied out. */
  lemma RingExpanded(s: System, t: Amps, i: int, j: int, a: int, b: int)
    ensures Ring(s, t)([i, j, a, b]) == RingTerms(s, t, i, j, a, b)
  {
    hide Box2, Box3, Box4, Sum, Ein, Wmbej, Times2;
    var c, w := DoublesAt(t, i, a), WmbejAt(s, t, b, j);
    RingSum(s, t, i, j, a, b);
    RingProduct(s, t, i, j, a, b);
    forall m, e
      ensures w(m, e)
           == OvvoAt(s, b, j)(m, e) + Sum(0, s.nv, Line(Wmbej1(s, t, b, j), m, e))
            - Sum(0, s.no, Line(Wmbej2(s, t, b, j), m, e))
            + -0.5 * Box2(s.no, s.nv, Corner(Wmbej3(s, t, b, j), m, e))
            + -1.0 * Box2(s.no, s.nv, Corner(Wmbej4(s, t, b, j), m, e))
    {
      WmbejElement(s, t, m, b, e, j);
    }
    SpreadPair(s.no, s.nv, c, w, OvvoAt(s, b, j), s.nv, Wmbej1(s, t, b, j), s.no, Wmbej2(s, t, b, j),
               s.no, s.nv, -0.5, Wmbej3(s, t, b, j), -1.0, Wmbej4(s, t, b, j));
    RingSummands(s, t, i, j, a, b);
  }

  lemma RingSummands(s: System, t: Amps, i: int, j: int, a: int, b: int)
    ensures var c := DoublesAt(t, i, a);
            && Box2(s.no, s.nv, Times2(c, OvvoAt(s, b, j))) == Box2(s.no, s.nv, Ring1(s, t, i, j, a, b))
            && Box3(s.no, s.nv, s.nv, PairBefore3(c, Wmbej1(s, t, b, j)))
                 == Box3(s.no, s.nv, s.nv, Ring2(s, t, i, j, a, b))
            && Box3(s.no, s.nv, s.no, PairBefore3(c, Wmbej2(s, t, b, j)))
                 == Box3(s.no, s.nv, s.no, Ring3(s, t, i, j, a, b))
            && Box4(s.no, s.nv, s.no, s.nv, PairBefore4(c, Wmbej3(s, t, b, j)))
                 == Box4(s.no, s.nv, s.no, s.nv, Ring4(s, t, i, j, a, b))
            && Box4(s.no, s.nv, s.no, s.nv, PairBefore4(c, Wmbej4(s, t, b, j)))
                 == Box4(s.no, s.nv, s.no, s.nv, Ring5(s, t, i, j, a, b))
  {
    hide Box2, Box3, Box4;
    var c := DoublesAt(t, i, a);
    Box2Scale(s.no, s.nv, 1.0, Times2(c, OvvoAt(s, b, j)), Ring1(s, t, i, j, a, b));
    Box3Scale(s.no, s.nv, s.nv, 1.0, PairBefore3(c, Wmbej1(s, t, b, j)), Ring2(s, t, i, j, a, b));
    Box3Scale(s.no, s.nv, s.no, 1.0, PairBefore3(c, Wmbej2(s, t, b, j)), Ring3(s, t, i, j, a, b));
    Box4Scale(s.no, s.nv, s.no, s.nv, 1.0, PairBefore4(c, Wmbej3(s, t, b, j)), Ring4(s, t, i, j, a, b));
    Box4Scale(s.no, s.nv, s.no, s.nv, 1.0, PairBefore4(c, Wmbej4(s, t, b, j)), Ring5(s, t, i, j, a, b));
  }

  // ---- the dressed one-body terms -------------------------------------------------------------

  function DoublesRow(t: Amps, i: int, j: int, a: int): int -> real { e => t.t2([i, j, a, e]) }

  function DoublesColumn(t: Amps, i: int, a: int, b: int): int -> real { m => t.t2([i, m, a, b]) }

  function FaeDressedRow(s: System, t: Amps, b: int): int -> real { e => FaeDressed(s, t)([b, e]) }

  function FmiDressedColumn(s: System, t: Amps, j: int): int -> real { m => FmiDressed(s, t)([m, j]) }

  lemma VirtualSum(s: System, t: Amps, i: int, j: int, a: int, b: int)
    ensures s.E("ijab", "e", "ijae", t.t2, "be", FaeDressed(s, t))([i, j, a, b])
         == Sum(0, s.nv, Times1(DoublesRow(t, i, j, a), FaeDressedRow(s, t, b)))
  {
    hide Look, Get, s.Block, Sum, FaeDressed;
    var u, w := Op("ijae", t.t2), Op("be", FaeDressed(s, t));
    forall env, e | Bound(env, "ijab" + "e", [i, j, a, b] + [e])
      ensures Times1(DoublesRow(t, i, j, a), FaeDressedRow(s, t, b))(e) == Both(env, u, w)
    {
      Reads(env, "ijab" + "e", [i, j, a, b] + [e]);
      Look4(env, "ijae", i, j, a, e);
      Look2(env, "be", b, e);
    }
    OneSummed(s.Extents(), "ijab", "e", [i, j, a, b], u, w, Times1(DoublesRow(t, i, j, a), FaeDressedRow(s, t, b)));
  }

  lemma OccupiedSum(s: System, t: Amps, i: int, j: int, a: int, b: int)
    ensures s.E("ijab", "m", "imab", t.t2, "mj", FmiDressed(s, t))([i, j, a, b])
         == Sum(0, s.no, Times1(DoublesColumn(t, i, a, b), FmiDressedColumn(s, t, j)))
  {
    hide Look, Get, s.Block, Sum, FmiDressed;
    var u, w := Op("imab", t.t2), Op("mj", FmiDressed(s, t));
    forall env, m | Bound(env, "ijab" + "m", [i, j, a, b] + [m])
      ensures Times1(DoublesColumn(t, i, a, b), FmiDressedColumn(s, t, j))(m) == Both(env, u, w)
    {
      Reads(env, "ijab" + "m", [i, j, a, b] + [m]);
      Look4(env, "imab", i, m, a, b);
      Look2(env, "mj", m, j);
    }
    OneSummed(s.Extents(), "ijab", "m", [i, j, a, b], u, w,
              Times1(DoublesColumn(t, i, a, b), FmiDressedColumn(s, t, j)));
  }

  lemma VirtualSumExpanded(s: System, t: Amps, i: int, j: int, a: int, b: int)
    requires Fermionic(s.g)
    ensures s.E("ijab", "e", "ijae", t.t2, "be", FaeDressed(s, t))([i, j, a, b])
         == Box3(s.nv, s.no, s.nv, Virtual1(s, t, i, j, a, b))
          - 0.5 * Box4(s.nv, s.no, s.no, s.nv, Virtual2(s, t, i, j, a, b))
          - Box4(s.nv, s.no, s.no, s.nv, Virtual3(s, t, i, j, a, b))
  {
    hide Box2, Box3, Box4, Sum, Ein, FaeDressed, Fermionic;
    var c, x := DoublesRow(t, i, j, a), FaeDressedRow(s, t, b);
    VirtualSum(s, t, i, j, a, b);
    forall e
      ensures x(e)
           == Box2(s.no, s.nv, Plane(Fae1(s, t, b), e)) + -0.5 * Box3(s.no, s.no, s.nv, Solid(Fae2(s, t, b), e))
            + -1.0 * Box3(s.no, s.no, s.nv, Solid(Fae3(s, t, b), e))
    {
      FaeDressedElement(s, t, b, e);
    }
    Spread(s.nv, c, x, s.no, s.nv, Fae1(s, t, b), s.no, s.no, s.nv, -0.5, Fae2(s, t, b), -1.0, Fae3(s, t, b));
    Box3Scale(s.nv, s.no, s.nv, 1.0, Before3(c, Fae1(s, t, b)), Virtual1(s, t, i, j, a, b));
    Box4Scale(s.nv, s.no, s.no, s.nv, 1.0, Before4(c, Fae2(s, t, b)), Virtual2(s, t, i, j, a, b));
    Box4Scale(s.nv, s.no, s.no, s.nv, 1.0, Before4(c, Fae3(s, t, b)), Virtual3(s, t, i, j, a, b));
  }

  lemma OccupiedSumExpanded(s: System, t: Amps, i: int, j: int, a: int, b: int)
    requires Fermionic(s.g)
    ensures s.E("ijab", "m", "imab", t.t2, "mj", FmiDressed(s, t))([i, j, a, b])
         == Box3(s.no, s.no, s.nv, Occupied1(s, t, i, j, a, b))
          + 0.5 * Box4(s.no, s.no, s.nv, s.nv, Occupied2(s, t, i, j, a, b))
          + Box4(s.no, s.no, s.nv, s.nv, Occupied3(s, t, i, j, a, b))
  {
    hide Box2, Box3, Box4, Sum, Ein, FmiDressed, Fermionic;
    var c, x := DoublesColumn(t, i, a, b), FmiDressedColumn(s, t, j);
    OccupiedSum(s, t, i, j, a, b);
    forall m
      ensures x(m)
           == Box2(s.no, s.nv, Plane(Fmi1(s, t, j), m)) + 0.5 * Box3(s.no, s.nv, s.nv, Solid(Fmi2(s, t, j), m))
            + 1.0 * Box3(s.no, s.nv, s.nv, Solid(Fmi3(s, t, j), m))
    {
      FmiDressedElement(s, t, m, j);
    }
    Spread(s.no, c, x, s.no, s.nv, Fmi1(s, t, j), s.no, s.nv, s.nv, 0.5, Fmi2(s, t, j), 1.0, Fmi3(s, t, j));
    Box3Scale(s.no, s.no, s.nv, 1.0, Before3(c, Fmi1(s, t, j)), Occupied1(s, t, i, j, a, b));
    Box4Scale(s.no, s.no, s.nv, s.nv, 1.0, Before4(c, Fmi2(s, t, j)), Occupied2(s, t, i, j, a, b));
    Box4Scale(s.no, s.no, s.nv, s.nv, 1.0, Before4(c, Fmi3(s, t, j)), Occupied3(s, t, i, j, a, b));
  }

  lemma SinglesVirtualSum(s: System, t: Amps, i: int, j: int, a: int, b: int)
    ensures s.E("ijab", "e", "ie", t.t1, "abej", s.Block("vvvo"))([i, j, a, b])
         == Sum(0, s.nv, Occupied6(s, t, i, j, a, b))
  {
    hide Look, Get, s.Block, Sum;
    var u, w := Op("ie", t.t1), Op("abej", s.Block("vvvo"));
    forall env, e | Bound(env, "ijab" + "e", [i, j, a, b] + [e])
      ensures Occupied6(s, t, i, j, a, b)(e) == Both(env, u, w)
    {
      Reads(env, "ijab" + "e", [i, j, a, b] + [e]);
      Look2(env, "ie", i, e);
      Look4(env, "abej", a, b, e, j);
      BlocksRead(s, a, b, e, j);
    }
    OneSummed(s.Extents(), "ijab", "e", [i, j, a, b], u, w, Occupied6(s, t, i, j, a, b));
  }

  lemma SinglesOccupiedSum(s: System, t: Amps, i: int, j: int, a: int, b: int)
    ensures s.E("ijab", "m", "ma", t.t1, "mbij", s.Block("ovoo"))([i, j, a, b])
         == Sum(0, s.no, Virtual6(s, t, i, j, a, b))
  {
    hide Look, Get, s.Block, Sum;
    var u, w := Op("ma", t.t1), Op("mbij", s.Block("ovoo"));
    forall env, m | Bound(env, "ijab" + "m", [i, j, a, b] + [m])
      ensures Virtual6(s, t, i, j, a, b)(m) == Both(env, u, w)
    {
      Reads(env, "ijab" + "m", [i, j, a, b] + [m]);
      Look2(env, "ma", m, a);
      Look4(env, "mbij", m, b, i, j);
      BlocksRead(s, m, b, i, j);
    }
    OneSummed(s.Extents(), "ijab", "m", [i, j, a, b], u, w, Virtual6(s, t, i, j, a, b));
  }

  // ---- the whole residual ---------------------------------------------------------------------

  /** P(ij) and P(ab), element by element. */
  lemma PAt(x: Val, i: int, j: int, a: int, b: int)
    ensures P(x, 2, 3)([i, j, a, b]) == x([i, j, a, b]) - x([i, j, b, a])
    ensures P(x, 0, 1)([i, j, a, b]) == x([i, j, a, b]) - x([j, i, a, b])
  {
    assert Exchange([i, j, a, b], 2, 3) == [i, j, b, a] && Exchange([i, j, a, b], 0, 1) == [j, i, a, b];
  }

  lemma PPAt(x: Val, i: int, j: int, a: int, b: int)
    ensures P(P(x, 2, 3), 0, 1)([i, j, a, b])
         == x([i, j, a, b]) - x([i, j, b, a]) - x([j, i, a, b]) + x([j, i, b, a])
  {
    hide P;
    PAt(P(x, 2, 3), i, j, a, b);
    PAt(x, i, j, a, b);
    PAt(x, j, i, a, b);
  }

  lemma TermsAt(s: System, t: Amps, i: int, j: int, a: int, b: int)
    requires Fermionic(s.g)
    ensures VirtualTerm(s, t)([i, j, a, b]) - SinglesOccupied(s, t)([i, j, a, b])
              + 0.5 * (Box3(s.nv, s.nv, s.no, Virtual4(s, t, i, j, b, a))
                       - Box3(s.nv, s.nv, s.no, Virtual4(s, t, i, j, a, b)))
              + Box3(s.nv, s.nv, s.no, Virtual5(s, t, i, j, b, a)) - Box3(s.nv, s.nv, s.no, Virtual5(s, t, i, j, a, b))
         == VirtualTerms(s, t, i, j, a, b) - VirtualTerms(s, t, i, j, b, a)
  {
    hide Box3, Box4, Sum, Ein, FaeDressed, P, Fermionic, s.Block;
    var x := s.E("ijab", "e", "ijae", t.t2, "be", FaeDressed(s, t));
    var y := s.E("ijab", "m", "ma", t.t1, "mbij", s.Block("ovoo"));
    PAt(x, i, j, a, b);
    PAt(y, i, j, a, b);
    VirtualSumExpanded(s, t, i, j, a, b);
    VirtualSumExpanded(s, t, i, j, b, a);
    SinglesOccupiedSum(s, t, i, j, a, b);
    SinglesOccupiedSum(s, t, i, j, b, a);
  }

  lemma OccupiedTermsAt(s: System, t: Amps, i: int, j: int, a: int, b: int)
    requires Fermionic(s.g)
    ensures SinglesVirtual(s, t)([i, j, a, b]) - OccupiedTerm(s, t)([i, j, a, b])
              + 0.5 * (Box3(s.no, s.no, s.nv, Occupied4(s, t, i, j, a, b))
                       - Box3(s.no, s.no, s.nv, Occupied4(s, t, j, i, a, b)))
              + Box3(s.no, s.no, s.nv, Occupied5(s, t, i, j, a, b))
              - Box3(s.no, s.no, s.nv, Occupied5(s, t, j, i, a, b))
         == OccupiedTerms(s, t, i, j, a, b) - OccupiedTerms(s, t, j, i, a, b)
  {
    hide Box3, Box4, Sum, Ein, FmiDressed, P, Fermionic, s.Block;
    var x := s.E("ijab", "m", "imab", t.t2, "mj", FmiDressed(s, t));
    var y := s.E("ijab", "e", "ie", t.t1, "abej", s.Block("vvvo"));
    PAt(x, i, j, a, b);
    PAt(y, i, j, a, b);
    OccupiedSumExpanded(s, t, i, j, a, b);
    OccupiedSumExpanded(s, t, j, i, a, b);
    SinglesVirtualSum(s, t, i, j, a, b);
    SinglesVirtualSum(s, t, j, i, a, b);
  }

  lemma PlainTermsAt(s: System, t: Amps, i: int, j: int, a: int, b: int)
    requires Fermionic(s.g)
    ensures s.Block("oovv")([i, j, a, b]) + 0.5 * HoleLadder(s, t)([i, j, a, b])
              + 0.5 * ParticleLadder(s, t)([i, j, a, b])
         == PlainTerms(s, t, i, j, a, b)
          + 0.5 * (Box3(s.no, s.no, s.nv, Occupied4(s, t, i, j, a, b))
                   - Box3(s.no, s.no, s.nv, Occupied4(s, t, j, i, a, b)))
          + Box3(s.no, s.no, s.nv, Occupied5(s, t, i, j, a, b)) - Box3(s.no, s.no, s.nv, Occupied5(s, t, j, i, a, b))
          + 0.5 * (Box3(s.nv, s.nv, s.no, Virtual4(s, t, i, j, b, a))
                   - Box3(s.nv, s.nv, s.no, Virtual4(s, t, i, j, a, b)))
          + Box3(s.nv, s.nv, s.no, Virtual5(s, t, i, j, b, a)) - Box3(s.nv, s.nv, s.no, Virtual5(s, t, i, j, a, b))
  {
    hide Box2, Box3, Box4, HoleLadder, ParticleLadder, Fermionic, s.Block;
    BlocksRead(s, i, j, a, b);
    HoleLadderExpanded(s, t, i, j, a, b);
    ParticleLadderExpanded(s, t, i, j, a, b);
  }

  /** The factored doubles residual is the written-out one, for every size. */
  lemma DoublesResidualIs(s: System, t: Amps, i: int, j: int, a: int, b: int)
    requires Fermionic(s.g)
    ensures R2(s, t)([i, j, a, b]) == DoublesEquation(s, t, i, j, a, b)
  {
    hide Box3, PlainTerms, VirtualTerms, OccupiedTerms, RingTerms, VirtualTerm, OccupiedTerm, HoleLadder,
         ParticleLadder, Ring, SinglesVirtual, SinglesOccupied, Fermionic, P, s.Block;
    PlainTermsAt(s, t, i, j, a, b);
    TermsAt(s, t, i, j, a, b);
    OccupiedTermsAt(s, t, i, j, a, b);
    PPAt(Ring(s, t), i, j, a, b);
    RingExpanded(s, t, i, j, a, b);
    RingExpanded(s, t, i, j, b, a);
    RingExpanded(s, t, j, i, a, b);
    RingExpanded(s, t, j, i, b, a);
  }

  // ---- one iteration --------------------------------------------------------------------------

  /** One iteration, for every size: with the orbital energies multiplied back, the new amplitudes are the right-hand
      sides of the written-out equations at the old ones. */
  lemma IterationSolves(s: System, t: Amps, i: int, j: int, a: int, b: int)
    requires Fermionic(s.g)
    ensures s.eo(i) != s.ev(a) ==> (s.eo(i) - s.ev(a)) * Step(s, t).t1([i, a]) == SinglesEquation(s, t, i, a)
    ensures s.eo(i) + s.eo(j) != s.ev(a) + s.ev(b) ==>
              (s.eo(i) + s.eo(j) - s.ev(a) - s.ev(b)) * Step(s, t).t2([i, j, a, b]) == DoublesEquation(s, t, i, j, a, b)
  {
    hide R1, R2, SinglesEquation, DoublesEquation, Fermionic;
    CcsdSingles.SinglesResidualIs(s, t, i, a);
    DoublesResidualIs(s, t, i, j, a, b);
    DivTimes(R1(s, t)([i, a]), s.eo(i) - s.ev(a));
    DivTimes(R2(s, t)([i, j, a, b]), s.eo(i) + s.eo(j) - s.ev(a) - s.ev(b));
  }

  /** The start: MP2 doubles and no singles. */
  lemma StartSolves(s: System, i: int, j: int, a: int, b: int)
    ensures Start(s).t1([i, a]) == 0.0
    ensures s.eo(i) + s.eo(j) != s.ev(a) + s.ev(b) ==>
              (s.eo(i) + s.eo(j) - s.ev(a) - s.ev(b)) * Start(s).t2([i, j, a, b]) == s.g([i, j, s.no + a, s.no + b])
  {
    hide s.Block;
    BlocksRead(s, i, j, a, b);
    DivTimes(s.Block("oovv")([i, j, a, b]), s.eo(i) + s.eo(j) - s.ev(a) - s.ev(b));
  }
}
