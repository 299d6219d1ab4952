/** The factored residual of the oracle is the right-hand side of the written-out singles equation. */
module CcsdSingles {
  import opened Sums
  import opened BoxSums
  import opened Einsum
  import opened EinsumSums
  import opened SpinOrbital
  import opened Ccsd
  import opened CcsdEquations
  import opened CcsdElements

  function SinglesRow(t: Amps, i: int): int -> real { e => t.t1([i, e]) }

  function SinglesColumn(t: Amps, a: int): int -> real { m => t.t1([m, a]) }

  function FaeRow(s: System, t: Amps, a: int): int -> real { e => Fae(s, t)([a, e]) }

  function FmiColumn(s: System, t: Amps, i: int): int -> real { m => Fmi(s, t)([m, i]) }

  lemma ParticleTerm(s: System, t: Amps, i: int, a: int)
    ensures s.E("ia", "e", "ie", t.t1, "ae", Fae(s, t))([i, a])
         == Sum(0, s.nv, Times1(SinglesRow(t, i), FaeRow(s, t, a)))
  {
    hide Look, Get, s.Block, Sum, Fae;
    var u, w := Op("ie", t.t1), Op("ae", Fae(s, t));
    forall env, e | Bound(env, "ia" + "e", [i, a] + [e])
      ensures Times1(SinglesRow(t, i), FaeRow(s, t, a))(e) == Both(env, u, w)
    {
      Reads(env, "ia" + "e", [i, a] + [e]);
      Look2(env, "ie", i, e);
      Look2(env, "ae", a, e);
    }
    OneSummed(s.Extents(), "ia", "e", [i, a], u, w, Times1(SinglesRow(t, i), FaeRow(s, t, a)));
  }

  lemma HoleTerm(s: System, t: Amps, i: int, a: int)
    ensures s.E("ia", "m", "ma", t.t1, "mi", Fmi(s, t))([i, a])
         == Sum(0, s.no, Times1(SinglesColumn(t, a), FmiColumn(s, t, i)))
  {
    hide Look, Get, s.Block, Sum, Fmi;
    var u, w := Op("ma", t.t1), Op("mi", Fmi(s, t));
    forall env, m | Bound(env, "ia" + "m", [i, a] + [m])
      ensures Times1(SinglesColumn(t, a), FmiColumn(s, t, i))(m) == Both(env, u, w)
    {
      Reads(env, "ia" + "m", [i, a] + [m]);
      Look2(env, "ma", m, a);
      Look2(env, "mi", m, i);
    }
    OneSummed(s.Extents(), "ia", "m", [i, a], u, w, Times1(SinglesColumn(t, a), FmiColumn(s, t, i)));
  }

  function FieldTerm(s: System, t: Amps, i: int, a: int): Pair {
    (m, e) => t.t2([i, m, a, e]) * Fme(s, t)([m, e])
  }

  lemma DoublesField(s: System, t: Amps, i: int, a: int)
    ensures s.E("ia", "me", "imae", t.t2, "me", Fme(s, t))([i, a])
         == Box2(s.no, s.nv, FieldTerm(s, t, i, a))
  {
    hide Look, Get, s.Block, Box2, Fme;
    var u, w := Op("imae", t.t2), Op("me", Fme(s, t));
    forall env, m, e | Bound(env, "ia" + "me", [i, a] + [m, e])
      ensures FieldTerm(s, t, i, a)(m, e) == Both(env, u, w)
    {
      Reads(env, "ia" + "me", [i, a] + [m, e]);
      Look4(env, "imae", i, m, a, e);
      Look2(env, "me", m, e);
    }
    TwoSummed(s.Extents(), "ia", "me", [i, a], u, w, FieldTerm(s, t, i, a));
  }

  lemma Term7(s: System, t: Amps, i: int, a: int)
    ensures s.E("ia", "nf", "nf", t.t1, "naif", s.Block("ovov"))([i, a])
         == Box2(s.no, s.nv, Singles7(s, t, i, a))
  {
    hide Look, Get, s.Block, Box2;
    var u, w := Op("nf", t.t1), Op("naif", s.Block("ovov"));
    forall env, n, f | Bound(env, "ia" + "nf", [i, a] + [n, f])
      ensures Singles7(s, t, i, a)(n, f) == Both(env, u, w)
    {
      Reads(env, "ia" + "nf", [i, a] + [n, f]);
      Look2(env, "nf", n, f);
      Look4(env, "naif", n, a, i, f);
      BlocksRead(s, n, a, i, f);
    }
    TwoSummed(s.Extents(), "ia", "nf", [i, a], u, w, Singles7(s, t, i, a));
  }

  lemma Term8(s: System, t: Amps, i: int, a: int)
    ensures s.E("ia", "mef", "imef", t.t2, "maef", s.Block("ovvv"))([i, a])
         == Box3(s.no, s.nv, s.nv, Singles8(s, t, i, a))
  {
    hide Look, Get, s.Block, Box3;
    var u, w := Op("imef", t.t2), Op("maef", s.Block("ovvv"));
    forall env, m, e, f | Bound(env, "ia" + "mef", [i, a] + [m, e, f])
      ensures Singles8(s, t, i, a)(m, e, f) == Both(env, u, w)
    {
      Reads(env, "ia" + "mef", [i, a] + [m, e, f]);
      Look4(env, "imef", i, m, e, f);
      Look4(env, "maef", m, a, e, f);
      BlocksRead(s, m, a, e, f);
    }
    ThreeSummed(s.Extents(), "ia", "mef", [i, a], u, w, Singles8(s, t, i, a));
  }

  lemma Term9(s: System, t: Amps, i: int, a: int)
    ensures s.E("ia", "mne", "mnae", t.t2, "nmei", s.Block("oovo"))([i, a])
         == Box3(s.no, s.no, s.nv, Singles9(s, t, i, a))
  {
    hide Look, Get, s.Block, Box3;
    var u, w := Op("mnae", t.t2), Op("nmei", s.Block("oovo"));
    forall env, m, n, e | Bound(env, "ia" + "mne", [i, a] + [m, n, e])
      ensures Singles9(s, t, i, a)(m, n, e) == Both(env, u, w)
    {
      Reads(env, "ia" + "mne", [i, a] + [m, n, e]);
      Look4(env, "mnae", m, n, a, e);
      Look4(env, "nmei", n, m, e, i);
      BlocksRead(s, n, m, e, i);
    }
    ThreeSummed(s.Extents(), "ia", "mne", [i, a], u, w, Singles9(s, t, i, a));
  }

  lemma ParticleTermExpanded(s: System, t: Amps, i: int, a: int)
    requires Fermionic(s.g)
    ensures Sum(0, s.nv, Times1(SinglesRow(t, i), FaeRow(s, t, a)))
         == Box3(s.nv, s.no, s.nv, Singles1(s, t, i, a)) - 0.5 * Box4(s.nv, s.no, s.no, s.nv, Singles2(s, t, i, a))
          - 0.5 * Box4(s.no, s.no, s.nv, s.nv, Singles5(s, t, i, a))
  {
    hide Box2, Box3, Box4, Sum, Fae, Fermionic;
    var c := SinglesRow(t, i);
    forall e
      ensures FaeRow(s, t, a)(e)
           == Box2(s.no, s.nv, Plane(Fae1(s, t, a), e)) + -0.5 * Box3(s.no, s.no, s.nv, Solid(Fae2(s, t, a), e))
            + -0.5 * Box3(s.no, s.no, s.nv, Solid(Fae3(s, t, a), e))
    {
      FaeElement(s, t, a, e);
    }
    Spread(s.nv, c, FaeRow(s, t, a), s.no, s.nv, Fae1(s, t, a), s.no, s.no, s.nv,
           -0.5, Fae2(s, t, a), -0.5, Fae3(s, t, a));
    Box3Scale(s.nv, s.no, s.nv, 1.0, Before3(c, Fae1(s, t, a)), Singles1(s, t, i, a));
    Box4Scale(s.nv, s.no, s.no, s.nv, 1.0, Before4(c, Fae2(s, t, a)), Singles2(s, t, i, a));
    FirstMovesIn(s.nv, s.no, s.no, s.nv, Before4(c, Fae3(s, t, a)));
    Box4Scale(s.no, s.no, s.nv, s.nv, 1.0, Later(Before4(c, Fae3(s, t, a))), Singles5(s, t, i, a));
  }

  lemma HoleTermExpanded(s: System, t: Amps, i: int, a: int)
    requires Fermionic(s.g)
    ensures Sum(0, s.no, Times1(SinglesColumn(t, a), FmiColumn(s, t, i)))
         == Box3(s.no, s.no, s.nv, Singles3(s, t, i, a)) + 0.5 * Box4(s.no, s.no, s.nv, s.nv, Singles4(s, t, i, a))
          + 0.5 * Box4(s.no, s.no, s.nv, s.nv, Singles5(s, t, i, a))
  {
    hide Box2, Box3, Box4, Sum, Fmi, Fermionic;
    var c := SinglesColumn(t, a);
    forall m
      ensures FmiColumn(s, t, i)(m)
           == Box2(s.no, s.nv, Plane(Fmi1(s, t, i), m)) + 0.5 * Box3(s.no, s.nv, s.nv, Solid(Fmi2(s, t, i), m))
            + 0.5 * Box3(s.no, s.nv, s.nv, Solid(Fmi3(s, t, i), m))
    {
      FmiElement(s, t, m, i);
    }
    Spread(s.no, c, FmiColumn(s, t, i), s.no, s.nv, Fmi1(s, t, i), s.no, s.nv, s.nv,
           0.5, Fmi2(s, t, i), 0.5, Fmi3(s, t, i));
    Box3Scale(s.no, s.no, s.nv, 1.0, Before3(c, Fmi1(s, t, i)), Singles3(s, t, i, a));
    Box4Scale(s.no, s.no, s.nv, s.nv, 1.0, Before4(c, Fmi2(s, t, i)), Singles4(s, t, i, a));
    Box4Scale(s.no, s.no, s.nv, s.nv, 1.0, Before4(c, Fmi3(s, t, i)), Singles5(s, t, i, a));
  }

  lemma FieldTermExpanded(s: System, t: Amps, i: int, a: int)
    ensures Box2(s.no, s.nv, FieldTerm(s, t, i, a)) == Box4(s.no, s.nv, s.no, s.nv, Singles6(s, t, i, a))
  {
    hide Box2, Box4, Fme;
    var q := Singles6(s, t, i, a);
    forall m, e
      ensures FieldTerm(s, t, i, a)(m, e) == 1.0 * Corners(s.no, s.nv, q)(m, e)
    {
      FmeElement(s, t, m, e);
      Box2Scale(s.no, s.nv, t.t2([i, m, a, e]), Corner(q, m, e), Fme1(s, t, m, e));
    }
    Box2Scale(s.no, s.nv, 1.0, FieldTerm(s, t, i, a), Corners(s.no, s.nv, q));
    Box4IsPairs(s.no, s.nv, s.no, s.nv, q);
  }

  /** The factored singles residual is the written-out one, for every size. */
  lemma SinglesResidualIs(s: System, t: Amps, i: int, a: int)
    requires Fermionic(s.g)
    ensures R1(s, t)([i, a]) == SinglesEquation(s, t, i, a)
  {
    hide Box2, Box3, Box4, Sum, Ein, Fae, Fmi, Fme, Fermionic, s.Block;
    ParticleTerm(s, t, i, a);
    ParticleTermExpanded(s, t, i, a);
    HoleTerm(s, t, i, a);
    HoleTermExpanded(s, t, i, a);
    DoublesField(s, t, i, a);
    FieldTermExpanded(s, t, i, a);
    Term7(s, t, i, a);
    Term8(s, t, i, a);
    Term9(s, t, i, a);
  }
}
