/** The iteration in closed form where it can be solved by hand: two occupied and two virtual spin orbitals, no singles,
    and no integrals but those that excite or de-excite both electrons. */
module TwoElectrons {
  import opened Sums
  import opened BoxSums
  import opened Einsum
  import opened SpinOrbital
  import opened Ccsd
  import opened CcsdEquations
  import CcsdDoubles

  /** Only <ij||ab> and <ab||ij> differ from zero. */
  ghost predicate OnlyDoubleExcitations(s: System) {
    forall p, q, r, u | s.g([p, q, r, u]) != 0.0 ::
      (p < s.no && q < s.no && s.no <= r && s.no <= u) || (s.no <= p && s.no <= q && r < s.no && u < s.no)
  }

  ghost predicate Minimal(s: System, t: Amps) {
    s.no == 2 == s.nv && Fermionic(s.g) && PairAntisym(t.t2) && NoSingles(t) && OnlyDoubleExcitations(s)
  }

  // ---- what vanishes --------------------------------------------------------------------------

  lemma PlainRemain(s: System, t: Amps, i: int, j: int, a: int, b: int)
    requires NoSingles(t) && OnlyDoubleExcitations(s)
    requires 0 <= i < s.no && 0 <= j < s.no && 0 <= a < s.nv && 0 <= b < s.nv
    ensures PlainTerms(s, t, i, j, a, b)
         == s.g([i, j, s.no + a, s.no + b]) + 0.25 * Box4(s.no, s.no, s.nv, s.nv, Plain5(s, t, i, j, a, b))
  {
    hide Box2, Box4, NoSingles, OnlyDoubleExcitations;
    PlainIntegralsVanish(s, t, i, j, a, b);
    PlainSinglesVanish(s, t, i, j, a, b);
  }

  lemma PlainIntegralsVanish(s: System, t: Amps, i: int, j: int, a: int, b: int)
    requires OnlyDoubleExcitations(s) && 0 <= i < s.no && 0 <= j < s.no && 0 <= a < s.nv && 0 <= b < s.nv
    ensures Box2(s.no, s.no, Plain1(s, t, i, j, a, b)) == 0.0 && Box2(s.nv, s.nv, Plain3(s, t, i, j, a, b)) == 0.0
  {
    hide Box2;
    Box2Scale(s.no, s.no, 0.0, Plain1(s, t, i, j, a, b), Plain1(s, t, i, j, a, b));
    Box2Scale(s.nv, s.nv, 0.0, Plain3(s, t, i, j, a, b), Plain3(s, t, i, j, a, b));
  }

  lemma PlainSinglesVanish(s: System, t: Amps, i: int, j: int, a: int, b: int)
    requires NoSingles(t)
    ensures Box2(s.no, s.no, Plain2(s, t, i, j, a, b)) == 0.0 && Box2(s.nv, s.nv, Plain4(s, t, i, j, a, b)) == 0.0
    ensures Box4(s.no, s.no, s.nv, s.nv, Plain6(s, t, i, j, a, b)) == 0.0
    ensures Box4(s.no, s.no, s.nv, s.nv, Plain7(s, t, i, j, a, b)) == 0.0
    ensures Box4(s.no, s.no, s.nv, s.nv, Plain8(s, t, i, j, a, b)) == 0.0
  {
    hide Box2, Box4;
    var o, v := s.no, s.nv;
    Box2Scale(o, o, 0.0, Plain2(s, t, i, j, a, b), Plain2(s, t, i, j, a, b));
    Box2Scale(v, v, 0.0, Plain4(s, t, i, j, a, b), Plain4(s, t, i, j, a, b));
    Box4Scale(o, o, v, v, 0.0, Plain6(s, t, i, j, a, b), Plain6(s, t, i, j, a, b));
    Box4Scale(o, o, v, v, 0.0, Plain7(s, t, i, j, a, b), Plain7(s, t, i, j, a, b));
    Box4Scale(o, o, v, v, 0.0, Plain8(s, t, i, j, a, b), Plain8(s, t, i, j, a, b));
  }

  lemma VirtualRemain(s: System, t: Amps, i: int, j: int, a: int, b: int)
    requires NoSingles(t)
    ensures VirtualTerms(s, t, i, j, a, b) == -0.5 * Box4(s.nv, s.no, s.no, s.nv, Virtual2(s, t, i, j, a, b))
  {
    hide Box3, Box4, Sum;
    var o, v := s.no, s.nv;
    Box3Scale(v, o, v, 0.0, Virtual1(s, t, i, j, a, b), Virtual1(s, t, i, j, a, b));
    Box4Scale(v, o, o, v, 0.0, Virtual3(s, t, i, j, a, b), Virtual3(s, t, i, j, a, b));
    Box3Scale(v, v, o, 0.0, Virtual4(s, t, i, j, a, b), Virtual4(s, t, i, j, a, b));
    Box3Scale(v, v, o, 0.0, Virtual5(s, t, i, j, a, b), Virtual5(s, t, i, j, a, b));
    SumScale(0, o, 0.0, Virtual6(s, t, i, j, a, b), Virtual6(s, t, i, j, a, b));
  }

  lemma OccupiedRemain(s: System, t: Amps, i: int, j: int, a: int, b: int)
    requires NoSingles(t)
    ensures OccupiedTerms(s, t, i, j, a, b) == -0.5 * Box4(s.no, s.no, s.nv, s.nv, Occupied2(s, t, i, j, a, b))
  {
    hide Box3, Box4, Sum;
    var o, v := s.no, s.nv;
    Box3Scale(o, o, v, 0.0, Occupied1(s, t, i, j, a, b), Occupied1(s, t, i, j, a, b));
    Box4Scale(o, o, v, v, 0.0, Occupied3(s, t, i, j, a, b), Occupied3(s, t, i, j, a, b));
    Box3Scale(o, o, v, 0.0, Occupied4(s, t, i, j, a, b), Occupied4(s, t, i, j, a, b));
    Box3Scale(o, o, v, 0.0, Occupied5(s, t, i, j, a, b), Occupied5(s, t, i, j, a, b));
    SumScale(0, v, 0.0, Occupied6(s, t, i, j, a, b), Occupied6(s, t, i, j, a, b));
  }

  lemma RingRemain(s: System, t: Amps, i: int, j: int, a: int, b: int)
    requires NoSingles(t) && OnlyDoubleExcitations(s) && 0 <= j < s.no && 0 <= b < s.nv
    ensures RingTerms(s, t, i, j, a, b) == -0.5 * Box4(s.no, s.nv, s.no, s.nv, Ring4(s, t, i, j, a, b))
  {
    hide Box2, Box3, Box4;
    var o, v := s.no, s.nv;
    Box2Scale(o, v, 0.0, Ring1(s, t, i, j, a, b), Ring1(s, t, i, j, a, b));
    Box3Scale(o, v, v, 0.0, Ring2(s, t, i, j, a, b), Ring2(s, t, i, j, a, b));
    Box3Scale(o, v, o, 0.0, Ring3(s, t, i, j, a, b), Ring3(s, t, i, j, a, b));
    Box4Scale(o, v, o, v, 0.0, Ring5(s, t, i, j, a, b), Ring5(s, t, i, j, a, b));
    Box2Scale(o, v, 0.0, Ring6(s, t, i, j, a, b), Ring6(s, t, i, j, a, b));
  }

  // ---- two by two -----------------------------------------------------------------------------

  /** The sign of a pair of indices that are 0 or 1. */
  function Sign(k: int, l: int): real { if k < l then 1.0 else if l < k then -1.0 else 0.0 }

  function Signs(m: int, n: int, a: int, b: int): real { Sign(m, n) * Sign(a, b) }

  /** An antisymmetric tensor of two by two indices has one independent element. */
  lemma OneAmplitude(x: Val, m: int, n: int, a: int, b: int)
    requires PairAntisym(x) && 0 <= m < 2 && 0 <= n < 2 && 0 <= a < 2 && 0 <= b < 2
    ensures x([m, n, a, b]) == Signs(m, n, a, b) * x([0, 1, 0, 1])
  {
    OrderFirst(x, m, n, a, b);
    OrderLast(x, 0, 1, a, b);
  }

  lemma OrderFirst(x: Val, m: int, n: int, a: int, b: int)
    requires PairAntisym(x) && 0 <= m < 2 && 0 <= n < 2
    ensures x([m, n, a, b]) == Sign(m, n) * x([0, 1, a, b])
  {
    assert Exchange([m, n, a, b], 0, 1) == [n, m, a, b];
  }

  lemma OrderLast(x: Val, m: int, n: int, a: int, b: int)
    requires PairAntisym(x) && 0 <= a < 2 && 0 <= b < 2
    ensures x([m, n, a, b]) == Sign(a, b) * x([m, n, 0, 1])
  {
    assert Exchange([m, n, a, b], 2, 3) == [m, n, b, a];
  }

  lemma OneIntegral(s: System, m: int, n: int, e: int, f: int)
    requires s.no == 2 && Fermionic(s.g) && 0 <= m < 2 && 0 <= n < 2 && 0 <= e < 2 && 0 <= f < 2
    ensures s.g([m, n, s.no + e, s.no + f]) == Signs(m, n, e, f) * s.g([0, 1, 2, 3])
  {
    BlocksRead(s, m, n, e, f);
    BlocksRead(s, 0, 1, 0, 1);
    BlockAntisym(s, "oovv", 0, 1);
    BlockAntisym(s, "oovv", 2, 3);
    OneAmplitude(s.Block("oovv"), m, n, e, f);
  }

  /** A box of two by two by two by two, term by term. */
  lemma Sixteen(f: Quad)
    ensures Box4(2, 2, 2, 2, f)
         == f(0, 0, 0, 0) + f(0, 0, 0, 1) + f(0, 0, 1, 0) + f(0, 0, 1, 1)
          + f(0, 1, 0, 0) + f(0, 1, 0, 1) + f(0, 1, 1, 0) + f(0, 1, 1, 1)
          + f(1, 0, 0, 0) + f(1, 0, 0, 1) + f(1, 0, 1, 0) + f(1, 0, 1, 1)
          + f(1, 1, 0, 0) + f(1, 1, 0, 1) + f(1, 1, 1, 0) + f(1, 1, 1, 1)
  {
    hide Box2, Box4, Sum;
    Box4IsPairs(2, 2, 2, 2, f);
    Four(Corners(2, 2, f));
    Four(Corner(f, 0, 0));
    Four(Corner(f, 0, 1));
    Four(Corner(f, 1, 0));
    Four(Corner(f, 1, 1));
  }

  lemma Two(f: int -> real)
    ensures Sum(0, 2, f) == f(0) + f(1)
  {
    SumLast(0, 1, f);
    SumLast(0, 0, f);
  }

  lemma Four(f: Pair)
    ensures Box2(2, 2, f) == f(0, 0) + f(0, 1) + f(1, 0) + f(1, 1)
  {
    Box2Is(2, 2, f);
    hide Box2, Sum;
    Two(Row(0, 2, f));
    Two(At(f, 0));
    Two(At(f, 1));
  }

  /** The signs of the four kinds of quadratic terms. */
  function PlainSigns(i: int, j: int, a: int, b: int): Quad {
    (m, n, e, f) => Signs(m, n, a, b) * Signs(i, j, e, f) * Signs(m, n, e, f)
  }

  function VirtualSigns(i: int, j: int, a: int, b: int): Quad {
    (e, m, n, f) => Signs(i, j, a, e) * Signs(m, n, b, f) * Signs(m, n, e, f)
  }

  function OccupiedSigns(i: int, j: int, a: int, b: int): Quad {
    (m, n, e, f) => Signs(i, m, a, b) * Signs(j, n, e, f) * Signs(m, n, e, f)
  }

  function RingSigns(i: int, j: int, a: int, b: int): Quad {
    (m, e, n, f) => Signs(i, m, a, e) * Signs(j, n, f, b) * Signs(m, n, e, f)
  }

  /** What every quadratic term is proportional to. */
  function Weight(s: System, t: Amps): real {
    t.t2([0, 1, 0, 1]) * t.t2([0, 1, 0, 1]) * s.g([0, 1, 2, 3])
  }

  lemma SignsOut(s: System, t: Amps, y: real, z: real, h: real, p: real, q: real, r: real)
    requires y == p * t.t2([0, 1, 0, 1]) && z == q * t.t2([0, 1, 0, 1]) && h == r * s.g([0, 1, 2, 3])
    ensures y * z * h == Weight(s, t) * (p * q * r)
  {
    Regroup(y, z, h, p, q, r, t.t2([0, 1, 0, 1]), s.g([0, 1, 2, 3]));
  }

  lemma Regroup(y: real, z: real, h: real, p: real, q: real, r: real, x: real, g: real)
    requires y == p * x && z == q * x && h == r * g
    ensures y * z * h == x * x * g * (p * q * r)
  {
    assert y * z == (x * x) * (p * q);
    assert y * z * h == ((x * x) * (p * q)) * (r * g) == x * x * g * (p * q * r);
  }

  /** Every term of a box multiplied by one number. */
  function Scaled(w: real, f: Quad): Quad { (k, l, m, n) => w * f(k, l, m, n) }

  lemma ScaledBox(w: real, f: Quad)
    ensures Box4(2, 2, 2, 2, Scaled(w, f)) == w * Box4(2, 2, 2, 2, f)
  {
    hide Box4;
    Box4Scale(2, 2, 2, 2, w, Scaled(w, f), f);
  }

  lemma PlainQuadraticCell(s: System, t: Amps, i: int, j: int, a: int, b: int, m: int, n: int, e: int, f: int)
    requires Minimal(s, t) && 0 <= i < 2 && 0 <= j < 2 && 0 <= a < 2 && 0 <= b < 2
    requires 0 <= m < 2 && 0 <= n < 2 && 0 <= e < 2 && 0 <= f < 2
    ensures Plain5(s, t, i, j, a, b)(m, n, e, f) == Scaled(Weight(s, t), PlainSigns(i, j, a, b))(m, n, e, f)
  {
    hide PairAntisym, Fermionic, NoSingles, OnlyDoubleExcitations, Signs, Weight;
    OneAmplitude(t.t2, m, n, a, b);
    OneAmplitude(t.t2, i, j, e, f);
    OneIntegral(s, m, n, e, f);
    SignsOut(s, t, t.t2([m, n, a, b]), t.t2([i, j, e, f]), s.g([m, n, s.no + e, s.no + f]),
             Signs(m, n, a, b), Signs(i, j, e, f), Signs(m, n, e, f));
  }

  lemma PlainQuadratic(s: System, t: Amps, i: int, j: int, a: int, b: int)
    requires Minimal(s, t) && 0 <= i < 2 && 0 <= j < 2 && 0 <= a < 2 && 0 <= b < 2
    ensures Box4(2, 2, 2, 2, Plain5(s, t, i, j, a, b)) == Weight(s, t) * Box4(2, 2, 2, 2, PlainSigns(i, j, a, b))
  {
    hide Box4, PairAntisym, Fermionic, NoSingles, OnlyDoubleExcitations, Plain5, PlainSigns, Weight, Scaled;
    forall m, n, e, f | 0 <= m < 2 && 0 <= n < 2 && 0 <= e < 2 && 0 <= f < 2
      ensures Plain5(s, t, i, j, a, b)(m, n, e, f) == 1.0 * Scaled(Weight(s, t), PlainSigns(i, j, a, b))(m, n, e, f)
    {
      PlainQuadraticCell(s, t, i, j, a, b, m, n, e, f);
    }
    Box4Scale(2, 2, 2, 2, 1.0, Plain5(s, t, i, j, a, b), Scaled(Weight(s, t), PlainSigns(i, j, a, b)));
    ScaledBox(Weight(s, t), PlainSigns(i, j, a, b));
  }

  lemma VirtualQuadraticCell(s: System, t: Amps, i: int, j: int, a: int, b: int, e: int, m: int, n: int, f: int)
    requires Minimal(s, t) && 0 <= i < 2 && 0 <= j < 2 && 0 <= a < 2 && 0 <= b < 2
    requires 0 <= e < 2 && 0 <= m < 2 && 0 <= n < 2 && 0 <= f < 2
    ensures Virtual2(s, t, i, j, a, b)(e, m, n, f) == Scaled(Weight(s, t), VirtualSigns(i, j, a, b))(e, m, n, f)
  {
    hide PairAntisym, Fermionic, NoSingles, OnlyDoubleExcitations, Signs, Weight;
    OneAmplitude(t.t2, i, j, a, e);
    OneAmplitude(t.t2, m, n, b, f);
    OneIntegral(s, m, n, e, f);
    SignsOut(s, t, t.t2([i, j, a, e]), t.t2([m, n, b, f]), s.g([m, n, s.no + e, s.no + f]),
             Signs(i, j, a, e), Signs(m, n, b, f), Signs(m, n, e, f));
  }

  lemma VirtualQuadratic(s: System, t: Amps, i: int, j: int, a: int, b: int)
    requires Minimal(s, t) && 0 <= i < 2 && 0 <= j < 2 && 0 <= a < 2 && 0 <= b < 2
    ensures Box4(2, 2, 2, 2, Virtual2(s, t, i, j, a, b)) == Weight(s, t) * Box4(2, 2, 2, 2, VirtualSigns(i, j, a, b))
  {
    hide Box4, PairAntisym, Fermionic, NoSingles, OnlyDoubleExcitations, Virtual2, VirtualSigns, Weight, Scaled;
    forall e, m, n, f | 0 <= e < 2 && 0 <= m < 2 && 0 <= n < 2 && 0 <= f < 2
      ensures Virtual2(s, t, i, j, a, b)(e, m, n, f) == 1.0 * Scaled(Weight(s, t), VirtualSigns(i, j, a, b))(e, m, n, f)
    {
      VirtualQuadraticCell(s, t, i, j, a, b, e, m, n, f);
    }
    Box4Scale(2, 2, 2, 2, 1.0, Virtual2(s, t, i, j, a, b), Scaled(Weight(s, t), VirtualSigns(i, j, a, b)));
    ScaledBox(Weight(s, t), VirtualSigns(i, j, a, b));
  }

  lemma OccupiedQuadraticCell(s: System, t: Amps, i: int, j: int, a: int, b: int, m: int, n: int, e: int, f: int)
    requires Minimal(s, t) && 0 <= i < 2 && 0 <= j < 2 && 0 <= a < 2 && 0 <= b < 2
    requires 0 <= m < 2 && 0 <= n < 2 && 0 <= e < 2 && 0 <= f < 2
    ensures Occupied2(s, t, i, j, a, b)(m, n, e, f) == Scaled(Weight(s, t), OccupiedSigns(i, j, a, b))(m, n, e, f)
  {
    hide PairAntisym, Fermionic, NoSingles, OnlyDoubleExcitations, Signs, Weight;
    OneAmplitude(t.t2, i, m, a, b);
    OneAmplitude(t.t2, j, n, e, f);
    OneIntegral(s, m, n, e, f);
    SignsOut(s, t, t.t2([i, m, a, b]), t.t2([j, n, e, f]), s.g([m, n, s.no + e, s.no + f]),
             Signs(i, m, a, b), Signs(j, n, e, f), Signs(m, n, e, f));
  }

  lemma OccupiedQuadratic(s: System, t: Amps, i: int, j: int, a: int, b: int)
    requires Minimal(s, t) && 0 <= i < 2 && 0 <= j < 2 && 0 <= a < 2 && 0 <= b < 2
    ensures Box4(2, 2, 2, 2, Occupied2(s, t, i, j, a, b)) == Weight(s, t) * Box4(2, 2, 2, 2, OccupiedSigns(i, j, a, b))
  {
    hide Box4, PairAntisym, Fermionic, NoSingles, OnlyDoubleExcitations, Occupied2, OccupiedSigns, Weight, Scaled;
    forall m, n, e, f | 0 <= m < 2 && 0 <= n < 2 && 0 <= e < 2 && 0 <= f < 2
      ensures Occupied2(s, t, i, j, a, b)(m, n, e, f)
              == 1.0 * Scaled(Weight(s, t), OccupiedSigns(i, j, a, b))(m, n, e, f)
    {
      OccupiedQuadraticCell(s, t, i, j, a, b, m, n, e, f);
    }
    Box4Scale(2, 2, 2, 2, 1.0, Occupied2(s, t, i, j, a, b), Scaled(Weight(s, t), OccupiedSigns(i, j, a, b)));
    ScaledBox(Weight(s, t), OccupiedSigns(i, j, a, b));
  }

  lemma RingQuadraticCell(s: System, t: Amps, i: int, j: int, a: int, b: int, m: int, e: int, n: int, f: int)
    requires Minimal(s, t) && 0 <= i < 2 && 0 <= j < 2 && 0 <= a < 2 && 0 <= b < 2
    requires 0 <= m < 2 && 0 <= e < 2 && 0 <= n < 2 && 0 <= f < 2
    ensures Ring4(s, t, i, j, a, b)(m, e, n, f) == Scaled(Weight(s, t), RingSigns(i, j, a, b))(m, e, n, f)
  {
    hide PairAntisym, Fermionic, NoSingles, OnlyDoubleExcitations, Signs, Weight;
    OneAmplitude(t.t2, i, m, a, e);
    OneAmplitude(t.t2, j, n, f, b);
    OneIntegral(s, m, n, e, f);
    SignsOut(s, t, t.t2([i, m, a, e]), t.t2([j, n, f, b]), s.g([m, n, s.no + e, s.no + f]),
             Signs(i, m, a, e), Signs(j, n, f, b), Signs(m, n, e, f));
  }

  lemma RingQuadratic(s: System, t: Amps, i: int, j: int, a: int, b: int)
    requires Minimal(s, t) && 0 <= i < 2 && 0 <= j < 2 && 0 <= a < 2 && 0 <= b < 2
    ensures Box4(2, 2, 2, 2, Ring4(s, t, i, j, a, b)) == Weight(s, t) * Box4(2, 2, 2, 2, RingSigns(i, j, a, b))
  {
    hide Box4, PairAntisym, Fermionic, NoSingles, OnlyDoubleExcitations, Ring4, RingSigns, Weight, Scaled;
    forall m, e, n, f | 0 <= m < 2 && 0 <= e < 2 && 0 <= n < 2 && 0 <= f < 2
      ensures Ring4(s, t, i, j, a, b)(m, e, n, f) == 1.0 * Scaled(Weight(s, t), RingSigns(i, j, a, b))(m, e, n, f)
    {
      RingQuadraticCell(s, t, i, j, a, b, m, e, n, f);
    }
    Box4Scale(2, 2, 2, 2, 1.0, Ring4(s, t, i, j, a, b), Scaled(Weight(s, t), RingSigns(i, j, a, b)));
    ScaledBox(Weight(s, t), RingSigns(i, j, a, b));
  }

  lemma SignSums()
    ensures Box4(2, 2, 2, 2, PlainSigns(0, 1, 0, 1)) == 4.0
    ensures Box4(2, 2, 2, 2, VirtualSigns(0, 1, 0, 1)) == 2.0 && Box4(2, 2, 2, 2, VirtualSigns(0, 1, 1, 0)) == -2.0
    ensures Box4(2, 2, 2, 2, OccupiedSigns(0, 1, 0, 1)) == 2.0 && Box4(2, 2, 2, 2, OccupiedSigns(1, 0, 0, 1)) == -2.0
    ensures Box4(2, 2, 2, 2, RingSigns(0, 1, 0, 1)) == -1.0 && Box4(2, 2, 2, 2, RingSigns(1, 0, 0, 1)) == 1.0
    ensures Box4(2, 2, 2, 2, RingSigns(0, 1, 1, 0)) == 1.0 && Box4(2, 2, 2, 2, RingSigns(1, 0, 1, 0)) == -1.0
  {
    hide Box4;
    Sixteen(PlainSigns(0, 1, 0, 1));
    Sixteen(VirtualSigns(0, 1, 0, 1));
    Sixteen(VirtualSigns(0, 1, 1, 0));
    Sixteen(OccupiedSigns(0, 1, 0, 1));
    Sixteen(OccupiedSigns(1, 0, 0, 1));
    Sixteen(RingSigns(0, 1, 0, 1));
    Sixteen(RingSigns(1, 0, 0, 1));
    Sixteen(RingSigns(0, 1, 1, 0));
    Sixteen(RingSigns(1, 0, 1, 0));
  }

  lemma QuadraticTerms(s: System, t: Amps)
    requires Minimal(s, t)
    ensures var x, g := t.t2([0, 1, 0, 1]), s.g([0, 1, 2, 3]);
            DoublesEquation(s, t, 0, 1, 0, 1) == g * (1.0 - x * x)
  {
    hide Box4, PairAntisym, Fermionic, NoSingles, OnlyDoubleExcitations, PlainTerms, VirtualTerms, OccupiedTerms,
         RingTerms;
    PlainRemain(s, t, 0, 1, 0, 1);
    VirtualRemain(s, t, 0, 1, 0, 1);
    VirtualRemain(s, t, 0, 1, 1, 0);
    OccupiedRemain(s, t, 0, 1, 0, 1);
    OccupiedRemain(s, t, 1, 0, 0, 1);
    RingRemain(s, t, 0, 1, 0, 1);
    RingRemain(s, t, 1, 0, 0, 1);
    RingRemain(s, t, 0, 1, 1, 0);
    RingRemain(s, t, 1, 0, 1, 0);
    PlainQuadratic(s, t, 0, 1, 0, 1);
    VirtualQuadratic(s, t, 0, 1, 0, 1);
    VirtualQuadratic(s, t, 0, 1, 1, 0);
    OccupiedQuadratic(s, t, 0, 1, 0, 1);
    OccupiedQuadratic(s, t, 1, 0, 0, 1);
    RingQuadratic(s, t, 0, 1, 0, 1);
    RingQuadratic(s, t, 1, 0, 0, 1);
    RingQuadratic(s, t, 0, 1, 1, 0);
    RingQuadratic(s, t, 1, 0, 1, 0);
    SignSums();
  }

  /** One iteration of the one amplitude t is g (1 - t t) over the energies, with g the one integral. */
  lemma IterationInClosedForm(s: System, t: Amps)
    requires Minimal(s, t) && s.eo(0) + s.eo(1) != s.ev(0) + s.ev(1)
    ensures var x, g := t.t2([0, 1, 0, 1]), s.g([0, 1, 2, 3]);
            (s.eo(0) + s.eo(1) - s.ev(0) - s.ev(1)) * Step(s, t).t2([0, 1, 0, 1]) == g * (1.0 - x * x)
  {
    hide Step, DoublesEquation, SinglesEquation, PairAntisym, NoSingles, OnlyDoubleExcitations, Fermionic;
    QuadraticTerms(s, t);
    CcsdDoubles.IterationSolves(s, t, 0, 1, 0, 1);
  }

  lemma StartIsMinimal(s: System)
    requires s.no == 2 == s.nv && Fermionic(s.g) && OnlyDoubleExcitations(s)
    ensures Minimal(s, Start(s))
  {
    hide OnlyDoubleExcitations;
    StartAntisym(s);
  }

  /** The first iteration from the MP2 start: with u the MP2 amplitude g / d, it gives (1 - u u) u. */
  lemma FirstIterate(s: System)
    requires s.no == 2 == s.nv && Fermionic(s.g) && OnlyDoubleExcitations(s)
    requires s.eo(0) + s.eo(1) - s.ev(0) - s.ev(1) != 0.0
    ensures var u := s.g([0, 1, 2, 3]) / (s.eo(0) + s.eo(1) - s.ev(0) - s.ev(1));
            Step(s, Start(s)).t2([0, 1, 0, 1]) == (1.0 - u * u) * u
  {
    hide Step, Start, Minimal, OnlyDoubleExcitations, Fermionic;
    var d, g := s.eo(0) + s.eo(1) - s.ev(0) - s.ev(1), s.g([0, 1, 2, 3]);
    StartIsMinimal(s);
    CcsdDoubles.StartSolves(s, 0, 1, 0, 1);
    IterationInClosedForm(s, Start(s));
    Quotients(d, g, Start(s).t2([0, 1, 0, 1]), Step(s, Start(s)).t2([0, 1, 0, 1]));
  }

  lemma Quotients(d: real, g: real, x: real, y: real)
    requires d != 0.0 && d * x == g && d * y == g * (1.0 - x * x)
    ensures x == g / d && y == (1.0 - x * x) * x
  {
    assert d * y == d * (x * (1.0 - x * x));
  }
}
