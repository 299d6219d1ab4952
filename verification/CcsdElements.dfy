/** The elements of the one-body intermediates as nested sums over integrals of antisymmetric pairs: with the factors
    one half of tau-tilde merged, and the dressing of the doubles added. */
module CcsdElements {
  import opened Sums
  import opened BoxSums
  import opened Einsum
  import opened EinsumSums
  import opened SpinOrbital
  import opened Ccsd

  // ---- Fae ------------------------------------------------------------------------------------

  function Fae1(s: System, t: Amps, a: int): Triple {
    (e, m, f) => t.t1([m, f]) * s.g([s.no + a, m, s.no + e, s.no + f])
  }

  function Fae2(s: System, t: Amps, a: int): Quad {
    (e, m, n, f) => t.t2([m, n, a, f]) * s.g([m, n, s.no + e, s.no + f])
  }

  function Fae3(s: System, t: Amps, a: int): Quad {
    (e, m, n, f) => t.t1([m, a]) * t.t1([n, f]) * s.g([m, n, s.no + e, s.no + f])
  }

  function FaeTilde(s: System, t: Amps, a: int): Quad {
    (e, m, n, f) => TauTilde(s, t)([m, n, a, f]) * s.g([m, n, s.no + e, s.no + f])
  }

  lemma FaeSingles(s: System, t: Amps, a: int, e: int)
    ensures s.E("ae", "mf", "mf", t.t1, "amef", s.Block("vovv"))([a, e])
         == Box2(s.no, s.nv, Plane(Fae1(s, t, a), e))
  {
    hide Look, Get, s.Block, Box2;
    var u, w := Op("mf", t.t1), Op("amef", s.Block("vovv"));
    forall env, m, f | Bound(env, "ae" + "mf", [a, e] + [m, f])
      ensures Plane(Fae1(s, t, a), e)(m, f) == Both(env, u, w)
    {
      Reads(env, "ae" + "mf", [a, e] + [m, f]);
      Look2(env, "mf", m, f);
      Look4(env, "amef", a, m, e, f);
      BlocksRead(s, a, m, e, f);
    }
    TwoSummed(s.Extents(), "ae", "mf", [a, e], u, w, Plane(Fae1(s, t, a), e));
  }

  lemma FaeDoubles(s: System, t: Amps, a: int, e: int)
    ensures s.E("ae", "mnf", "mnaf", TauTilde(s, t), "mnef", s.Block("oovv"))([a, e])
         == Box3(s.no, s.no, s.nv, Solid(FaeTilde(s, t, a), e))
  {
    hide Look, Get, s.Block, Box3, TauTilde;
    var u, w := Op("mnaf", TauTilde(s, t)), Op("mnef", s.Block("oovv"));
    forall env, m, n, f | Bound(env, "ae" + "mnf", [a, e] + [m, n, f])
      ensures Solid(FaeTilde(s, t, a), e)(m, n, f) == Both(env, u, w)
    {
      Reads(env, "ae" + "mnf", [a, e] + [m, n, f]);
      Look4(env, "mnaf", m, n, a, f);
      Look4(env, "mnef", m, n, e, f);
      BlocksRead(s, m, n, e, f);
    }
    ThreeSummed(s.Extents(), "ae", "mnf", [a, e], u, w, Solid(FaeTilde(s, t, a), e));
  }

  lemma TauTildeAt(s: System, t: Amps, i: int, j: int, a: int, b: int)
    ensures TauTilde(s, t)([i, j, a, b])
         == t.t2([i, j, a, b]) + 0.5 * (t.t1([i, a]) * t.t1([j, b]) - t.t1([i, b]) * t.t1([j, a]))
  {
    hide OuterJB, OuterJA;
    OuterElement(s, t.t1, [i, j, a, b]);
  }

  lemma TauAt(s: System, t: Amps, i: int, j: int, a: int, b: int)
    ensures Tau(s, t)([i, j, a, b])
         == t.t2([i, j, a, b]) + t.t1([i, a]) * t.t1([j, b]) - t.t1([i, b]) * t.t1([j, a])
  {
    hide OuterJB, OuterJA;
    OuterElement(s, t.t1, [i, j, a, b]);
  }

  /** An antisymmetry of the integrals, element by element. */
  lemma FirstPair(s: System, p: int, q: int, r: int, u: int)
    requires Antisym(4, s.g, 0, 1)
    ensures s.g([q, p, r, u]) == -s.g([p, q, r, u])
  {
    assert Exchange([p, q, r, u], 0, 1) == [q, p, r, u];
  }

  lemma LastPair(s: System, p: int, q: int, r: int, u: int)
    requires Antisym(4, s.g, 2, 3)
    ensures s.g([p, q, u, r]) == -s.g([p, q, r, u])
  {
    assert Exchange([p, q, r, u], 2, 3) == [p, q, u, r];
  }

  /** The two halves of the antisymmetrized product of singles are one. */
  lemma FaeTildeMerged(s: System, t: Amps, a: int, e: int)
    requires Fermionic(s.g)
    ensures Box3(s.no, s.no, s.nv, Solid(FaeTilde(s, t, a), e))
         == Box3(s.no, s.no, s.nv, Solid(Fae2(s, t, a), e)) + Box3(s.no, s.no, s.nv, Solid(Fae3(s, t, a), e))
  {
    hide Box3, TauTilde, Antisym;
    var p := Solid(Fae3(s, t, a), e);
    Box3SwapFirst(s.no, s.no, s.nv, p);
    forall m, n, f
      ensures Solid(FaeTilde(s, t, a), e)(m, n, f)
           == Solid(Fae2(s, t, a), e)(m, n, f) + 0.5 * p(m, n, f) + 0.5 * Swap01(p)(m, n, f)
    {
      TauTildeAt(s, t, m, n, a, f);
      FirstPair(s, m, n, s.no + e, s.no + f);
      TildeProduct(t.t2([m, n, a, f]), t.t1([m, a]), t.t1([n, f]), t.t1([m, f]), t.t1([n, a]),
                   s.g([m, n, s.no + e, s.no + f]));
    }
    Halves(s.no, s.no, s.nv, Solid(FaeTilde(s, t, a), e), Solid(Fae2(s, t, a), e), p, Swap01(p));
  }

  lemma TildeProduct(d: real, p: real, q: real, r: real, u: real, g: real)
    ensures (d + 0.5 * (p * q - r * u)) * g == d * g + 0.5 * (p * q * g) + 0.5 * (u * r * -g)
  {
  }

  /** Fae[ae], with the singles products merged. */
  lemma FaeElement(s: System, t: Amps, a: int, e: int)
    requires Fermionic(s.g)
    ensures Fae(s, t)([a, e])
         == Box2(s.no, s.nv, Plane(Fae1(s, t, a), e)) + -0.5 * Box3(s.no, s.no, s.nv, Solid(Fae2(s, t, a), e))
          + -0.5 * Box3(s.no, s.no, s.nv, Solid(Fae3(s, t, a), e))
  {
    hide Box2, Box3, TauTilde, Ein;
    FaeSingles(s, t, a, e);
    FaeDoubles(s, t, a, e);
    FaeTildeMerged(s, t, a, e);
  }

  // ---- Fmi ------------------------------------------------------------------------------------

  function Fmi1(s: System, t: Amps, i: int): Triple {
    (m, n, e) => t.t1([n, e]) * s.g([m, n, i, s.no + e])
  }

  function Fmi2(s: System, t: Amps, i: int): Quad {
    (m, n, e, f) => t.t2([i, n, e, f]) * s.g([m, n, s.no + e, s.no + f])
  }

  function Fmi3(s: System, t: Amps, i: int): Quad {
    (m, n, e, f) => t.t1([i, e]) * t.t1([n, f]) * s.g([m, n, s.no + e, s.no + f])
  }

  function FmiTilde(s: System, t: Amps, i: int): Quad {
    (m, n, e, f) => TauTilde(s, t)([i, n, e, f]) * s.g([m, n, s.no + e, s.no + f])
  }

  lemma FmiSingles(s: System, t: Amps, m: int, i: int)
    ensures s.E("mi", "ne", "ne", t.t1, "mnie", s.Block("ooov"))([m, i])
         == Box2(s.no, s.nv, Plane(Fmi1(s, t, i), m))
  {
    hide Look, Get, s.Block, Box2;
    var u, w := Op("ne", t.t1), Op("mnie", s.Block("ooov"));
    forall env, n, e | Bound(env, "mi" + "ne", [m, i] + [n, e])
      ensures Plane(Fmi1(s, t, i), m)(n, e) == Both(env, u, w)
    {
      Reads(env, "mi" + "ne", [m, i] + [n, e]);
      Look2(env, "ne", n, e);
      Look4(env, "mnie", m, n, i, e);
      BlocksRead(s, m, n, i, e);
    }
    TwoSummed(s.Extents(), "mi", "ne", [m, i], u, w, Plane(Fmi1(s, t, i), m));
  }

  lemma FmiDoubles(s: System, t: Amps, m: int, i: int)
    ensures s.E("mi", "nef", "inef", TauTilde(s, t), "mnef", s.Block("oovv"))([m, i])
         == Box3(s.no, s.nv, s.nv, Solid(FmiTilde(s, t, i), m))
  {
    hide Look, Get, s.Block, Box3, TauTilde;
    var u, w := Op("inef", TauTilde(s, t)), Op("mnef", s.Block("oovv"));
    forall env, n, e, f | Bound(env, "mi" + "nef", [m, i] + [n, e, f])
      ensures Solid(FmiTilde(s, t, i), m)(n, e, f) == Both(env, u, w)
    {
      Reads(env, "mi" + "nef", [m, i] + [n, e, f]);
      Look4(env, "inef", i, n, e, f);
      Look4(env, "mnef", m, n, e, f);
      BlocksRead(s, m, n, e, f);
    }
    ThreeSummed(s.Extents(), "mi", "nef", [m, i], u, w, Solid(FmiTilde(s, t, i), m));
  }

  lemma FmiTildeMerged(s: System, t: Amps, m: int, i: int)
    requires Fermionic(s.g)
    ensures Box3(s.no, s.nv, s.nv, Solid(FmiTilde(s, t, i), m))
         == Box3(s.no, s.nv, s.nv, Solid(Fmi2(s, t, i), m)) + Box3(s.no, s.nv, s.nv, Solid(Fmi3(s, t, i), m))
  {
    hide Box3, TauTilde, Antisym;
    var p := Solid(Fmi3(s, t, i), m);
    Box3SwapLast(s.no, s.nv, p);
    forall n, e, f
      ensures Solid(FmiTilde(s, t, i), m)(n, e, f)
           == Solid(Fmi2(s, t, i), m)(n, e, f) + 0.5 * p(n, e, f) + 0.5 * Swap12(p)(n, e, f)
    {
      TauTildeAt(s, t, i, n, e, f);
      LastPair(s, m, n, s.no + e, s.no + f);
      TildeProduct(t.t2([i, n, e, f]), t.t1([i, e]), t.t1([n, f]), t.t1([n, e]), t.t1([i, f]),
                   s.g([m, n, s.no + e, s.no + f]));
    }
    Halves(s.no, s.nv, s.nv, Solid(FmiTilde(s, t, i), m), Solid(Fmi2(s, t, i), m), p, Swap12(p));
  }

  /** Fmi[mi], with the singles products merged. */
  lemma FmiElement(s: System, t: Amps, m: int, i: int)
    requires Fermionic(s.g)
    ensures Fmi(s, t)([m, i])
         == Box2(s.no, s.nv, Plane(Fmi1(s, t, i), m)) + 0.5 * Box3(s.no, s.nv, s.nv, Solid(Fmi2(s, t, i), m))
          + 0.5 * Box3(s.no, s.nv, s.nv, Solid(Fmi3(s, t, i), m))
  {
    hide Box2, Box3, TauTilde, Ein;
    FmiSingles(s, t, m, i);
    FmiDoubles(s, t, m, i);
    FmiTildeMerged(s, t, m, i);
  }

  // ---- Fme and the dressed intermediates ------------------------------------------------------

  function Fme1(s: System, t: Amps, m: int, e: int): Pair {
    (n, f) => t.t1([n, f]) * s.g([m, n, s.no + e, s.no + f])
  }

  lemma FmeElement(s: System, t: Amps, m: int, e: int)
    ensures Fme(s, t)([m, e]) == Box2(s.no, s.nv, Fme1(s, t, m, e))
  {
    hide Look, Get, s.Block, Box2;
    var u, w := Op("nf", t.t1), Op("mnef", s.Block("oovv"));
    forall env, n, f | Bound(env, "me" + "nf", [m, e] + [n, f])
      ensures Fme1(s, t, m, e)(n, f) == Both(env, u, w)
    {
      Reads(env, "me" + "nf", [m, e] + [n, f]);
      Look2(env, "nf", n, f);
      Look4(env, "mnef", m, n, e, f);
      BlocksRead(s, m, n, e, f);
    }
    TwoSummed(s.Extents(), "me", "nf", [m, e], u, w, Fme1(s, t, m, e));
  }

  /** What dresses Fae: t[mb] Fme[me], summed over m. */
  function VirtualDressing(s: System, t: Amps, b: int, e: int): int -> real { m => t.t1([m, b]) * Fme(s, t)([m, e]) }

  lemma VirtualDressed(s: System, t: Amps, b: int, e: int)
    ensures s.E("be", "m", "mb", t.t1, "me", Fme(s, t))([b, e])
         == Sum(0, s.no, VirtualDressing(s, t, b, e))
  {
    hide Look, Get, s.Block, Sum, Fme;
    var u, w := Op("mb", t.t1), Op("me", Fme(s, t));
    forall env, m | Bound(env, "be" + "m", [b, e] + [m])
      ensures VirtualDressing(s, t, b, e)(m) == Both(env, u, w)
    {
      Reads(env, "be" + "m", [b, e] + [m]);
      Look2(env, "mb", m, b);
      Look2(env, "me", m, e);
    }
    OneSummed(s.Extents(), "be", "m", [b, e], u, w, VirtualDressing(s, t, b, e));
  }

  /** FaeDressed[be]: the dressing makes the product of singles whole. */
  lemma FaeDressedElement(s: System, t: Amps, b: int, e: int)
    requires Fermionic(s.g)
    ensures FaeDressed(s, t)([b, e])
         == Box2(s.no, s.nv, Plane(Fae1(s, t, b), e)) + -0.5 * Box3(s.no, s.no, s.nv, Solid(Fae2(s, t, b), e))
          + -1.0 * Box3(s.no, s.no, s.nv, Solid(Fae3(s, t, b), e))
  {
    hide Box2, Ein, Fae, Fme, Sum;
    FaeElement(s, t, b, e);
    VirtualDressed(s, t, b, e);
    forall m
      ensures VirtualDressing(s, t, b, e)(m) == 1.0 * Planes(s.no, s.nv, Solid(Fae3(s, t, b), e))(m)
    {
      FmeElement(s, t, m, e);
      Box2Scale(s.no, s.nv, t.t1([m, b]), Plane(Solid(Fae3(s, t, b), e), m), Fme1(s, t, m, e));
    }
    SumScale(0, s.no, 1.0, VirtualDressing(s, t, b, e), Planes(s.no, s.nv, Solid(Fae3(s, t, b), e)));
  }

  /** What dresses Fmi: t[je] Fme[me], summed over e. */
  function OccupiedDressing(s: System, t: Amps, m: int, j: int): int -> real { e => t.t1([j, e]) * Fme(s, t)([m, e]) }

  lemma OccupiedDressed(s: System, t: Amps, m: int, j: int)
    ensures s.E("mj", "e", "je", t.t1, "me", Fme(s, t))([m, j])
         == Sum(0, s.nv, OccupiedDressing(s, t, m, j))
  {
    hide Look, Get, s.Block, Sum, Fme;
    var u, w := Op("je", t.t1), Op("me", Fme(s, t));
    forall env, e | Bound(env, "mj" + "e", [m, j] + [e])
      ensures OccupiedDressing(s, t, m, j)(e) == Both(env, u, w)
    {
      Reads(env, "mj" + "e", [m, j] + [e]);
      Look2(env, "je", j, e);
      Look2(env, "me", m, e);
    }
    OneSummed(s.Extents(), "mj", "e", [m, j], u, w, OccupiedDressing(s, t, m, j));
  }

  /** FmiDressed[mj]. */
  lemma FmiDressedElement(s: System, t: Amps, m: int, j: int)
    requires Fermionic(s.g)
    ensures FmiDressed(s, t)([m, j])
         == Box2(s.no, s.nv, Plane(Fmi1(s, t, j), m)) + 0.5 * Box3(s.no, s.nv, s.nv, Solid(Fmi2(s, t, j), m))
          + 1.0 * Box3(s.no, s.nv, s.nv, Solid(Fmi3(s, t, j), m))
  {
    hide Box2, Ein, Fmi, Fme, Sum;
    var p := Solid(Fmi3(s, t, j), m);
    FmiElement(s, t, m, j);
    OccupiedDressed(s, t, m, j);
    forall e
      ensures OccupiedDressing(s, t, m, j)(e) == 1.0 * Planes(s.no, s.nv, Swap01(p))(e)
    {
      FmeElement(s, t, m, e);
      Box2Scale(s.no, s.nv, t.t1([j, e]), Plane(Swap01(p), e), Fme1(s, t, m, e));
    }
    SumScale(0, s.nv, 1.0, OccupiedDressing(s, t, m, j), Planes(s.no, s.nv, Swap01(p)));
    Box3SwapFirst(s.nv, s.no, s.nv, p);
  }
}
