/** The spin-orbital CCSD iteration as pure array expressions (the numpy oracle), and the
    antisymmetry that every iterate keeps, whatever the accelerator does between iterations. */
module Ccsd {
  import opened Einsum
  import opened SpinOrbital

  datatype Amps = Amps(t1: Val, t2: Val)

  function Zeros(): Val { x => 0.0 }

  ghost predicate NoSingles(t: Amps) { forall i, a :: t.t1([i, a]) == 0.0 }

  /** The MP2 start. */
  function Start(s: System): Amps { Amps(Zeros(), Divide(s.Block("oovv"), s.Dijab())) }

  // ---- intermediates ---------------------------------------------------------------------

  function OuterJB(s: System, t1: Val): Val { s.E("ijab", "", "ia", t1, "jb", t1) }
  function OuterJA(s: System, t1: Val): Val { s.E("ijab", "", "ib", t1, "ja", t1) }

  function TauTilde(s: System, t: Amps): Val { Plus(t.t2, Times(0.5, Minus(OuterJB(s, t.t1), OuterJA(s, t.t1)))) }

  function Tau(s: System, t: Amps): Val { Minus(Plus(t.t2, OuterJB(s, t.t1)), OuterJA(s, t.t1)) }

  function Fae(s: System, t: Amps): Val {
    Minus(s.E("ae", "mf", "mf", t.t1, "amef", s.Block("vovv")),
          Times(0.5, s.E("ae", "mnf", "mnaf", TauTilde(s, t), "mnef", s.Block("oovv"))))
  }

  function Fmi(s: System, t: Amps): Val {
    Plus(s.E("mi", "ne", "ne", t.t1, "mnie", s.Block("ooov")),
         Times(0.5, s.E("mi", "nef", "inef", TauTilde(s, t), "mnef", s.Block("oovv"))))
  }

  function Fme(s: System, t: Amps): Val { s.E("me", "nf", "nf", t.t1, "mnef", s.Block("oovv")) }

  function Wmnij(s: System, t: Amps): Val {
    Plus(Plus(s.Block("oooo"), P(s.E("mnij", "e", "je", t.t1, "mnie", s.Block("ooov")), 2, 3)),
         Times(0.25, s.E("mnij", "ef", "ijef", Tau(s, t), "mnef", s.Block("oovv"))))
  }

  function Wabef(s: System, t: Amps): Val {
    Plus(Minus(s.Block("vvvv"), P(s.E("abef", "m", "mb", t.t1, "amef", s.Block("vovv")), 0, 1)),
         Times(0.25, s.E("abef", "mn", "mnab", Tau(s, t), "mnef", s.Block("oovv"))))
  }

  function Jnfb(s: System, t: Amps): Val { Plus(Times(0.5, t.t2), s.E("jnfb", "", "jf", t.t1, "nb", t.t1)) }

  function Wmbej(s: System, t: Amps): Val {
    Minus(Minus(Plus(s.Block("ovvo"), s.E("mbej", "f", "jf", t.t1, "mbef", s.Block("ovvv"))),
                s.E("mbej", "n", "nb", t.t1, "mnej", s.Block("oovo"))),
          s.E("mbej", "nf", "jnfb", Jnfb(s, t), "mnef", s.Block("oovv")))
  }

  // ---- residuals ---------------------------------------------------------------------------

  function R1(s: System, t: Amps): Val {
    Minus(Minus(Minus(Plus(Minus(
            s.E("ia", "e", "ie", t.t1, "ae", Fae(s, t)),
            s.E("ia", "m", "ma", t.t1, "mi", Fmi(s, t))),
            s.E("ia", "me", "imae", t.t2, "me", Fme(s, t))),
            s.E("ia", "nf", "nf", t.t1, "naif", s.Block("ovov"))),
            Times(0.5, s.E("ia", "mef", "imef", t.t2, "maef", s.Block("ovvv")))),
            Times(0.5, s.E("ia", "mne", "mnae", t.t2, "nmei", s.Block("oovo"))))
  }

  function FaeDressed(s: System, t: Amps): Val {
    Minus(Fae(s, t), Times(0.5, s.E("be", "m", "mb", t.t1, "me", Fme(s, t))))
  }

  function FmiDressed(s: System, t: Amps): Val {
    Plus(Fmi(s, t), Times(0.5, s.E("mj", "e", "je", t.t1, "me", Fme(s, t))))
  }

  function VirtualTerm(s: System, t: Amps): Val { P(s.E("ijab", "e", "ijae", t.t2, "be", FaeDressed(s, t)), 2, 3) }

  function OccupiedTerm(s: System, t: Amps): Val { P(s.E("ijab", "m", "imab", t.t2, "mj", FmiDressed(s, t)), 0, 1) }

  function HoleLadder(s: System, t: Amps): Val { s.E("ijab", "mn", "mnab", Tau(s, t), "mnij", Wmnij(s, t)) }

  function ParticleLadder(s: System, t: Amps): Val { s.E("ijab", "ef", "ijef", Tau(s, t), "abef", Wabef(s, t)) }

  function Ring(s: System, t: Amps): Val {
    Minus(s.E("ijab", "me", "imae", t.t2, "mbej", Wmbej(s, t)),
          Ein(s.Extents(), "ijab", "me", [Op("ie", t.t1), Op("ma", t.t1), Op("mbej", s.Block("ovvo"))]))
  }

  function SinglesVirtual(s: System, t: Amps): Val { P(s.E("ijab", "e", "ie", t.t1, "abej", s.Block("vvvo")), 0, 1) }

  function SinglesOccupied(s: System, t: Amps): Val { P(s.E("ijab", "m", "ma", t.t1, "mbij", s.Block("ovoo")), 2, 3) }

  function R2(s: System, t: Amps): Val {
    Minus(Plus(Plus(Plus(Plus(Minus(Plus(
      s.Block("oovv"), VirtualTerm(s, t)), OccupiedTerm(s, t)),
      Times(0.5, HoleLadder(s, t))), Times(0.5, ParticleLadder(s, t))),
      P(P(Ring(s, t), 2, 3), 0, 1)), SinglesVirtual(s, t)), SinglesOccupied(s, t))
  }

  /** One plain iteration. */
  function Step(s: System, t: Amps): Amps { Amps(Divide(R1(s, t), s.Dia()), Divide(R2(s, t), s.Dijab())) }

  /** E = 1/4 <ij||ab> t2 + 1/2 <ij||ab> t1 t1 */
  function Energy(s: System, t: Amps): real {
    0.25 * Dot(s.Extents(), "ijab", s.Block("oovv"), t.t2)
    + 0.5 * Over(s.Extents(), "ijab", map[], [Op("ijab", s.Block("oovv")), Op("ia", t.t1), Op("jb", t.t1)])
  }

  // ---- antisymmetry ---------------------------------------------------------------------------

  /** Antisymmetric in the occupied pair and in the virtual pair. */
  ghost predicate PairAntisym(a: Val) { Antisym(4, a, 0, 1) && Antisym(4, a, 2, 3) }

  lemma CombinationsKeepAntisymmetry(a: Val, b: Val, c: real, p: nat, q: nat)
    requires Antisym(4, a, p, q) && Antisym(4, b, p, q)
    ensures Antisym(4, Plus(a, b), p, q) && Antisym(4, Minus(a, b), p, q) && Antisym(4, Times(c, a), p, q)
  {
    forall x: seq<int> | |x| == 4
      ensures Plus(a, b)(Exchange(x, p, q)) == -Plus(a, b)(x)
      ensures Minus(a, b)(Exchange(x, p, q)) == -Minus(a, b)(x)
      ensures Times(c, a)(Exchange(x, p, q)) == -Times(c, a)(x)
    {
      assert a(Exchange(x, p, q)) == -a(x) && b(Exchange(x, p, q)) == -b(x);
    }
  }

  lemma SumsKeepPairs(a: Val, b: Val, c: real)
    requires PairAntisym(a) && PairAntisym(b)
    ensures PairAntisym(Plus(a, b)) && PairAntisym(Minus(a, b)) && PairAntisym(Times(c, a))
  {
    CombinationsKeepAntisymmetry(a, b, c, 0, 1);
    CombinationsKeepAntisymmetry(a, b, c, 2, 3);
  }

  lemma QuotientKeepsPairs(s: System, a: Val)
    requires PairAntisym(a)
    ensures PairAntisym(Divide(a, s.Dijab()))
  {
    DenominatorsSymmetric(s);
    QuotientKeepsAntisymmetry(4, a, s.Dijab(), 0, 1);
    QuotientKeepsAntisymmetry(4, a, s.Dijab(), 2, 3);
  }

  /** The product of singles, antisymmetrized over the virtual labels, is antisymmetric in both pairs. */
  lemma SinglesProductAntisym(s: System, t1: Val)
    ensures PairAntisym(Minus(OuterJB(s, t1), OuterJA(s, t1)))
  {
    var o := Minus(OuterJB(s, t1), OuterJA(s, t1));
    forall x: seq<int>, p: nat, q: nat | |x| == 4 && ((p == 0 && q == 1) || (p == 2 && q == 3))
      ensures o(Exchange(x, p, q)) == -o(x)
    {
      OuterElement(s, t1, x);
      OuterElement(s, t1, Exchange(x, p, q));
      WedgeAntisym(t1, x, p, q);
    }
  }

  function Wedge(t1: Val, x: seq<int>): real
    requires |x| == 4
  {
    t1([x[0], x[2]]) * t1([x[1], x[3]]) - t1([x[0], x[3]]) * t1([x[1], x[2]])
  }

  lemma WedgeAntisym(t1: Val, x: seq<int>, p: nat, q: nat)
    requires |x| == 4 && ((p == 0 && q == 1) || (p == 2 && q == 3))
    ensures Wedge(t1, Exchange(x, p, q)) == -Wedge(t1, x)
  {
    var u, v := t1([x[0], x[2]]) * t1([x[1], x[3]]), t1([x[0], x[3]]) * t1([x[1], x[2]]);
    assert Wedge(t1, Exchange(x, p, q)) == v - u;
  }

  lemma OuterElement(s: System, t1: Val, x: seq<int>)
    requires |x| == 4
    ensures OuterJB(s, t1)(x) == t1([x[0], x[2]]) * t1([x[1], x[3]])
    ensures OuterJA(s, t1)(x) == t1([x[0], x[3]]) * t1([x[1], x[2]])
    ensures OuterJB(s, t1)(x) - OuterJA(s, t1)(x) == Wedge(t1, x)
  {
    Bind4("ijab", x);
    OuterTerms(Bind("ijab", x), t1, x);
  }

  lemma OuterTerms(env: Env, t1: Val, x: seq<int>)
    requires |x| == 4 && Get(env, 'i') == x[0] && Get(env, 'j') == x[1] && Get(env, 'a') == x[2] &&
             Get(env, 'b') == x[3]
    ensures Term(env, [Op("ia", t1), Op("jb", t1)]) == t1([x[0], x[2]]) * t1([x[1], x[3]])
    ensures Term(env, [Op("ib", t1), Op("ja", t1)]) == t1([x[0], x[3]]) * t1([x[1], x[2]])
  {
    Term2(env, Op("ia", t1), Op("jb", t1));
    Term2(env, Op("ib", t1), Op("ja", t1));
    assert Look(env, "ia") == [x[0], x[2]] && Look(env, "jb") == [x[1], x[3]];
    assert Look(env, "ib") == [x[0], x[3]] && Look(env, "ja") == [x[1], x[2]];
  }

  lemma TauAntisym(s: System, t: Amps)
    requires PairAntisym(t.t2)
    ensures PairAntisym(Tau(s, t))
  {
    var o := Minus(OuterJB(s, t.t1), OuterJA(s, t.t1));
    SinglesProductAntisym(s, t.t1);
    SumsKeepPairs(t.t2, o, 1.0);
    assert SameOn(4, Tau(s, t), Plus(t.t2, o));
    forall x: seq<int>, p: nat, q: nat | |x| == 4 && ((p == 0 && q == 1) || (p == 2 && q == 3))
      ensures Tau(s, t)(Exchange(x, p, q)) == -Tau(s, t)(x)
    {
      assert Plus(t.t2, o)(Exchange(x, p, q)) == -Plus(t.t2, o)(x);
    }
  }

  lemma WmnijAntisym(s: System, t: Amps)
    requires Fermionic(s.g) && PairAntisym(t.t2)
    ensures Antisym(4, Wmnij(s, t), 2, 3)
  {
    var singles := s.E("mnij", "e", "je", t.t1, "mnie", s.Block("ooov"));
    var doubles := s.E("mnij", "ef", "ijef", Tau(s, t), "mnef", s.Block("oovv"));
    BlockAntisym(s, "oooo", 2, 3);
    PAntisymmetrizes(4, singles, 2, 3);
    TauAntisym(s, t);
    EinInheritsAntisymmetry(s.Extents(), "mnij", "ef", Op("ijef", Tau(s, t)), Op("mnef", s.Block("oovv")), 2, 3, 0, 1);
    CombinationsKeepAntisymmetry(s.Block("oooo"), P(singles, 2, 3), 1.0, 2, 3);
    CombinationsKeepAntisymmetry(doubles, doubles, 0.25, 2, 3);
    CombinationsKeepAntisymmetry(Plus(s.Block("oooo"), P(singles, 2, 3)), Times(0.25, doubles), 1.0, 2, 3);
  }

  lemma WabefAntisym(s: System, t: Amps)
    requires Fermionic(s.g) && PairAntisym(t.t2)
    ensures Antisym(4, Wabef(s, t), 0, 1)
  {
    var singles := s.E("abef", "m", "mb", t.t1, "amef", s.Block("vovv"));
    var doubles := s.E("abef", "mn", "mnab", Tau(s, t), "mnef", s.Block("oovv"));
    BlockAntisym(s, "vvvv", 0, 1);
    PAntisymmetrizes(4, singles, 0, 1);
    TauAntisym(s, t);
    EinInheritsAntisymmetry(s.Extents(), "abef", "mn", Op("mnab", Tau(s, t)), Op("mnef", s.Block("oovv")), 0, 1, 2, 3);
    CombinationsKeepAntisymmetry(s.Block("vvvv"), P(singles, 0, 1), 1.0, 0, 1);
    CombinationsKeepAntisymmetry(doubles, doubles, 0.25, 0, 1);
    CombinationsKeepAntisymmetry(Minus(s.Block("vvvv"), P(singles, 0, 1)), Times(0.25, doubles), 1.0, 0, 1);
  }

  lemma LaddersAntisym(s: System, t: Amps)
    requires Fermionic(s.g) && PairAntisym(t.t2)
    ensures PairAntisym(HoleLadder(s, t)) && PairAntisym(ParticleLadder(s, t))
  {
    TauAntisym(s, t);
    WmnijAntisym(s, t);
    WabefAntisym(s, t);
    var n := s.Extents();
    EinInheritsAntisymmetry(n, "ijab", "mn", Op("mnab", Tau(s, t)), Op("mnij", Wmnij(s, t)), 0, 1, 2, 3);
    EinInheritsAntisymmetry(n, "ijab", "mn", Op("mnab", Tau(s, t)), Op("mnij", Wmnij(s, t)), 2, 3, 2, 3);
    EinInheritsAntisymmetry(n, "ijab", "ef", Op("ijef", Tau(s, t)), Op("abef", Wabef(s, t)), 0, 1, 0, 1);
    EinInheritsAntisymmetry(n, "ijab", "ef", Op("ijef", Tau(s, t)), Op("abef", Wabef(s, t)), 2, 3, 0, 1);
  }

  /** The terms that one P operator antisymmetrizes in one pair already have the other antisymmetry. */
  lemma DressedTermsAntisym(s: System, t: Amps)
    requires PairAntisym(t.t2)
    ensures PairAntisym(VirtualTerm(s, t)) && PairAntisym(OccupiedTerm(s, t))
  {
    var n := s.Extents();
    var virt := s.E("ijab", "e", "ijae", t.t2, "be", FaeDressed(s, t));
    var occ := s.E("ijab", "m", "imab", t.t2, "mj", FmiDressed(s, t));
    EinInheritsAntisymmetry(n, "ijab", "e", Op("ijae", t.t2), Op("be", FaeDressed(s, t)), 0, 1, 0, 1);
    EinInheritsAntisymmetry(n, "ijab", "m", Op("imab", t.t2), Op("mj", FmiDressed(s, t)), 2, 3, 2, 3);
    PAntisymmetrizes(4, virt, 2, 3);
    PKeepsAntisymmetry(4, virt, 2, 3, 0, 1);
    PAntisymmetrizes(4, occ, 0, 1);
    PKeepsAntisymmetry(4, occ, 0, 1, 2, 3);
  }

  lemma SinglesTermsAntisym(s: System, t: Amps)
    requires Fermionic(s.g)
    ensures PairAntisym(SinglesVirtual(s, t)) && PairAntisym(SinglesOccupied(s, t))
  {
    var n := s.Extents();
    var virt := s.E("ijab", "e", "ie", t.t1, "abej", s.Block("vvvo"));
    var occ := s.E("ijab", "m", "ma", t.t1, "mbij", s.Block("ovoo"));
    BlockAntisym(s, "vvvo", 0, 1);
    BlockAntisym(s, "ovoo", 2, 3);
    EinInheritsAntisymmetry(n, "ijab", "e", Op("ie", t.t1), Op("abej", s.Block("vvvo")), 2, 3, 0, 1);
    EinInheritsAntisymmetry(n, "ijab", "m", Op("ma", t.t1), Op("mbij", s.Block("ovoo")), 0, 1, 2, 3);
    PAntisymmetrizes(4, virt, 0, 1);
    PKeepsAntisymmetry(4, virt, 0, 1, 2, 3);
    PAntisymmetrizes(4, occ, 2, 3);
    PKeepsAntisymmetry(4, occ, 2, 3, 0, 1);
  }

  lemma RingAntisym(s: System, t: Amps)
    ensures PairAntisym(P(P(Ring(s, t), 2, 3), 0, 1))
  {
    PAntisymmetrizes(4, Ring(s, t), 2, 3);
    PKeepsAntisymmetry(4, P(Ring(s, t), 2, 3), 0, 1, 2, 3);
    PAntisymmetrizes(4, P(Ring(s, t), 2, 3), 0, 1);
  }

  lemma R2Antisym(s: System, t: Amps)
    requires Fermionic(s.g) && PairAntisym(t.t2)
    ensures PairAntisym(R2(s, t))
  {
    BlockAntisym(s, "oovv", 0, 1);
    BlockAntisym(s, "oovv", 2, 3);
    DressedTermsAntisym(s, t);
    LaddersAntisym(s, t);
    RingAntisym(s, t);
    SinglesTermsAntisym(s, t);
    var a := Plus(s.Block("oovv"), VirtualTerm(s, t));
    var b := Minus(a, OccupiedTerm(s, t));
    var hole, particle := Times(0.5, HoleLadder(s, t)), Times(0.5, ParticleLadder(s, t));
    var c := Plus(b, hole);
    var d := Plus(c, particle);
    var ring := P(P(Ring(s, t), 2, 3), 0, 1);
    SumsKeepPairs(s.Block("oovv"), VirtualTerm(s, t), 1.0);
    SumsKeepPairs(a, OccupiedTerm(s, t), 1.0);
    SumsKeepPairs(HoleLadder(s, t), HoleLadder(s, t), 0.5);
    SumsKeepPairs(ParticleLadder(s, t), ParticleLadder(s, t), 0.5);
    SumsKeepPairs(b, hole, 1.0);
    SumsKeepPairs(c, particle, 1.0);
    SumsKeepPairs(d, ring, 1.0);
    SumsKeepPairs(Plus(d, ring), SinglesVirtual(s, t), 1.0);
    SumsKeepPairs(Plus(Plus(d, ring), SinglesVirtual(s, t)), SinglesOccupied(s, t), 1.0);
  }

  /** One iteration keeps the doubles antisymmetric in both pairs. */
  lemma StepKeepsAntisymmetry(s: System, t: Amps)
    requires Fermionic(s.g) && PairAntisym(t.t2)
    ensures PairAntisym(Step(s, t).t2)
  {
    R2Antisym(s, t);
    QuotientKeepsPairs(s, R2(s, t));
  }

  lemma StartAntisym(s: System)
    requires Fermionic(s.g)
    ensures PairAntisym(Start(s).t2)
  {
    BlockAntisym(s, "oovv", 0, 1);
    BlockAntisym(s, "oovv", 2, 3);
    QuotientKeepsPairs(s, s.Block("oovv"));
  }

  // ---- whole runs -------------------------------------------------------------------------------

  /** The extrapolant of a DIIS history: any weights, missing weights count as zero. */
  function Combine(c: seq<real>, h: seq<Amps>): Amps {
    if |c| == 0 || |h| == 0 then Amps(Zeros(), Zeros())
    else
      var rest := Combine(c[1..], h[1..]);
      Amps(Plus(Times(c[0], h[0].t1), rest.t1), Plus(Times(c[0], h[0].t2), rest.t2))
  }

  datatype Progress = Progress(current: Amps, history: seq<Amps>)

  /** The state after |weights| iterations.  After iteration k the new amplitudes join the history and,
      unless weights[k] is empty, are replaced by that combination of the history: the plain iteration
      has no weights, and dropping old entries from the history is giving them weight zero. */
  function Run(s: System, weights: seq<seq<real>>): Progress {
    if |weights| == 0 then Progress(Start(s), [])
    else
      var before := Run(s, weights[..|weights| - 1]);
      var next := Step(s, before.current);
      var h := before.history + [next];
      var c := weights[|weights| - 1];
      Progress(if c == [] then next else Combine(c, h), h)
  }

  /** One iteration more: the new amplitudes join the history, and go on as they are or as the given combination. */
  lemma RunNext(s: System, weights: seq<seq<real>>, c: seq<real>)
    ensures var before, after := Run(s, weights), Run(s, weights + [c]);
            && after.history == before.history + [Step(s, before.current)]
            && (c == [] ==> after.current == Step(s, before.current))
            && (c != [] ==> after.current == Combine(c, after.history))
  {
    hide Step, Combine;
    assert (weights + [c])[..|weights|] == weights;
  }

  ghost predicate AllAntisym(h: seq<Amps>) { forall k | 0 <= k < |h| :: PairAntisym(h[k].t2) }

  lemma {:induction false} CombineKeepsAntisymmetry(c: seq<real>, h: seq<Amps>)
    requires AllAntisym(h)
    ensures PairAntisym(Combine(c, h).t2)
  {
    if |c| > 0 && |h| > 0 {
      var rest := Combine(c[1..], h[1..]).t2;
      CombineKeepsAntisymmetry(c[1..], h[1..]);
      SumsKeepPairs(h[0].t2, h[0].t2, c[0]);
      SumsKeepPairs(Times(c[0], h[0].t2), rest, 1.0);
    }
  }

  lemma Append(h: seq<Amps>, t: Amps)
    requires AllAntisym(h) && PairAntisym(t.t2)
    ensures AllAntisym(h + [t])
  {
  }

  /** Every amplitude of every run, accelerated in any way or not at all, is antisymmetric. */
  lemma {:induction false} EveryIterateAntisymmetric(s: System, weights: seq<seq<real>>)
    requires Fermionic(s.g)
    ensures PairAntisym(Run(s, weights).current.t2)
    ensures AllAntisym(Run(s, weights).history)
    decreases |weights|
  {
    if |weights| == 0 {
      StartAntisym(s);
    } else {
      var before := Run(s, weights[..|weights| - 1]);
      EveryIterateAntisymmetric(s, weights[..|weights| - 1]);
      StepKeepsAntisymmetry(s, before.current);
      Append(before.history, Step(s, before.current));
      CombineKeepsAntisymmetry(weights[|weights| - 1], before.history + [Step(s, before.current)]);
    }
  }

  /** The same from the raw random integrals: nothing about them has to be assumed. */
  lemma ToyRunsAreAntisymmetric(nspatial: nat, nocc: nat, raw: Val, eps: int -> real, weights: seq<seq<real>>)
    requires nocc <= nspatial
    ensures PairAntisym(Run(Toy(nspatial, nocc, raw, eps), weights).current.t2)
  {
    ToyIntegralsAreFermionic(raw);
    EveryIterateAntisymmetric(Toy(nspatial, nocc, raw, eps), weights);
  }
}
