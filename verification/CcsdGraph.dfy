/** The captured CCSD body: a straight-line program over reused scratch tensors that updates
    the amplitudes in place, proved against the pure iteration of module Ccsd. */
module CcsdGraph {
  import opened Einsum
  import opened SpinOrbital
  import opened Ccsd
  import opened Contractions

  /** Each field is one tensor; an operation assigns its new contents.  Nothing is assumed of the
      scratch tensors, so they may hold whatever an earlier replay left behind. */
  class Body {
    const s: System
    var t1: Val
    var t2: Val
    var s1: Val
    var s2: Val
    var ot: Val
    var tau: Val
    var taut: Val
    var fae: Val
    var fmi: Val
    var fme: Val
    var wmnij: Val
    var wabef: Val
    var wmbej: Val
    var wt4o: Val
    var wt4v: Val
    var jnfb: Val
    var be: Val
    var mj: Val
    var imea: Val
    var tmp: Val
    var r1: Val
    var r2: Val
    var xe: Val
    var ecorr: real
    var ePart: real

    /** The MP2 start; every other tensor is zero. */
    constructor (s: System)
      ensures this.s == s && t1 == Start(s).t1 && t2 == Start(s).t2
    {
      this.s := s;
      t1, t2, s1, s2 := Zeros(), Divide(s.Block("oovv"), s.Dijab()), Zeros(), Zeros();
      ot, tau, taut, fae, fmi, fme := Zeros(), Zeros(), Zeros(), Zeros(), Zeros(), Zeros();
      wmnij, wabef, wmbej, wt4o, wt4v := Zeros(), Zeros(), Zeros(), Zeros(), Zeros();
      jnfb, be, mj, imea, tmp, r1, r2, xe := Zeros(), Zeros(), Zeros(), Zeros(), Zeros(), Zeros(), Zeros(), Zeros();
      ecorr, ePart := 0.0, 0.0;
    }

    function Now(): Amps
      reads this
    {
      Amps(t1, t2)
    }

    /** einsum into a destination, overwriting it or accumulating. */
    function Into(dst: Val, out: string, summed: string, ia: string, a: Val, ib: string, b: Val, pf: real,
                  acc: bool): Val {
      EinInto(s.Extents(), out, summed, [Op(ia, a), Op(ib, b)], pf, if acc then 1.0 else 0.0, dst)
    }

    /** One replay of the body: the amplitudes become those of one pure iteration, whatever the scratch held. */
    method Replay()
      modifies this
      ensures SameOn(2, t1, Step(s, old(Now())).t1) && SameOn(4, t2, Step(s, old(Now())).t2)
      ensures ecorr == Energy(s, Now())
    {
      hide Tau, TauTilde, Fae, Fmi, Fme, Wmnij, Wabef, Wmbej, R1, R2, Step, SameOn, Energy;
      BuildTau();
      BuildF();
      BuildWmnij();
      BuildWabef();
      BuildWmbej();
      assert Intermediates();
      ResidualT1();
      ResidualT2();
      Update();
      Correlate();
    }

    method BuildTau()
      modifies this`ot, this`tau, this`taut
      ensures SameOn(4, tau, Tau(s, Now())) && SameOn(4, taut, TauTilde(s, Now()))
    {
      hide OuterJB, OuterJA;
      BuildOuter();
      tau := WithSingles(tau, 1.0);
      taut := WithSingles(taut, 0.5);
    }

    method BuildOuter()
      modifies this`ot
      ensures SameOn(4, ot, OuterJB(s, t1))
    {
      hide Ein;
      ot := Into(ot, "ijab", "", "ia", t1, "jb", t1, 1.0, false);
    }

    /** One turn of the loop over ("tau", 1) and ("taut", 1/2): dst <- t2 + w * (t1 t1 antisymmetrized). */
    method WithSingles(dst: Val, w: real) returns (r: Val)
      requires SameOn(4, ot, OuterJB(s, t1))
      ensures forall x | |x| == 4 :: r(x) == t2(x) + w * (OuterJB(s, t1)(x) - OuterJA(s, t1)(x))
    {
      hide Ein, Permute, OuterJB, OuterJA;
      r := Axpby(1.0, t2, 0.0, dst);
      r := Axpby(w, ot, 1.0, r);
      PermuteExchanges("ijba", "ijab", r, ot, 1.0, -w, 2, 3);
      r := Permute("ijba", "ijab", r, ot, 1.0, -w);
      forall x: seq<int> | |x| == 4
        ensures r(x) == t2(x) + w * (OuterJB(s, t1)(x) - OuterJA(s, t1)(x))
      {
        OuterTransposed(s, t1, x);
        var u, v := OuterJB(s, t1)(x), OuterJA(s, t1)(x);
        assert ot(x) == u && ot(Exchange(x, 2, 3)) == v;
        assert w * u + (-w) * v == w * (u - v);
      }
    }

    method BuildF()
      requires SameOn(4, taut, TauTilde(s, Now()))
      modifies this`fae, this`fmi, this`fme
      ensures SameOn(2, fae, Fae(s, Now())) && SameOn(2, fmi, Fmi(s, Now())) && SameOn(2, fme, Fme(s, Now()))
    {
      hide Ein, Permute, TauTilde;
      var n, oovv := s.Extents(), s.Block("oovv");
      fae := Into(fae, "ae", "mf", "mf", t1, "amef", s.Block("vovv"), 1.0, false);
      fae := Into(fae, "ae", "mnf", "mnaf", taut, "mnef", oovv, -0.5, true);
      EinSame(n, "ae", "mnf", "mnaf", taut, TauTilde(s, Now()), "mnef", oovv, oovv);
      fmi := Into(fmi, "mi", "ne", "ne", t1, "mnie", s.Block("ooov"), 1.0, false);
      fmi := Into(fmi, "mi", "nef", "inef", taut, "mnef", oovv, 0.5, true);
      EinSame(n, "mi", "nef", "inef", taut, TauTilde(s, Now()), "mnef", oovv, oovv);
      fme := Into(fme, "me", "nf", "nf", t1, "mnef", oovv, 1.0, false);
    }

    method BuildWmnij()
      requires SameOn(4, tau, Tau(s, Now()))
      modifies this`wmnij, this`wt4o
      ensures SameOn(4, wmnij, Wmnij(s, Now()))
    {
      hide Ein, Permute, Tau;
      wt4o := Into(wt4o, "mnij", "e", "je", t1, "mnie", s.Block("ooov"), 1.0, false);
      wmnij := Axpby(1.0, s.Block("oooo"), 0.0, wmnij);
      wmnij := Axpby(1.0, wt4o, 1.0, wmnij);
      PermuteExchanges("mnji", "mnij", wmnij, wt4o, 1.0, -1.0, 2, 3);
      wmnij := Permute("mnji", "mnij", wmnij, wt4o, 1.0, -1.0);
      wmnij := Into(wmnij, "mnij", "ef", "ijef", tau, "mnef", s.Block("oovv"), 0.25, true);
      EinSame(s.Extents(), "mnij", "ef", "ijef", tau, Tau(s, Now()), "mnef", s.Block("oovv"), s.Block("oovv"));
    }

    method BuildWabef()
      requires SameOn(4, tau, Tau(s, Now()))
      modifies this`wabef, this`wt4v
      ensures SameOn(4, wabef, Wabef(s, Now()))
    {
      hide Ein, Permute, Tau;
      wt4v := Into(wt4v, "abef", "m", "mb", t1, "amef", s.Block("vovv"), 1.0, false);
      wabef := Axpby(1.0, s.Block("vvvv"), 0.0, wabef);
      wabef := Axpby(-1.0, wt4v, 1.0, wabef);
      PermuteExchanges("baef", "abef", wabef, wt4v, 1.0, 1.0, 0, 1);
      wabef := Permute("baef", "abef", wabef, wt4v, 1.0, 1.0);
      wabef := Into(wabef, "abef", "mn", "mnab", tau, "mnef", s.Block("oovv"), 0.25, true);
      EinSame(s.Extents(), "abef", "mn", "mnab", tau, Tau(s, Now()), "mnef", s.Block("oovv"), s.Block("oovv"));
    }

    method BuildWmbej()
      modifies this`wmbej, this`jnfb
      ensures SameOn(4, wmbej, Wmbej(s, Now()))
    {
      hide Ein, Permute;
      jnfb := Into(jnfb, "jnfb", "", "jf", t1, "nb", t1, 1.0, false);
      jnfb := Axpby(0.5, t2, 1.0, jnfb);
      wmbej := Axpby(1.0, s.Block("ovvo"), 0.0, wmbej);
      wmbej := Into(wmbej, "mbej", "f", "jf", t1, "mbef", s.Block("ovvv"), 1.0, true);
      wmbej := Into(wmbej, "mbej", "n", "nb", t1, "mnej", s.Block("oovo"), -1.0, true);
      wmbej := Into(wmbej, "mbej", "nf", "jnfb", jnfb, "mnef", s.Block("oovv"), -1.0, true);
      EinSame(s.Extents(), "mbej", "nf", "jnfb", jnfb, Jnfb(s, Now()), "mnef", s.Block("oovv"), s.Block("oovv"));
    }

    method ResidualT1()
      requires SameOn(2, fae, Fae(s, Now())) && SameOn(2, fmi, Fmi(s, Now())) && SameOn(2, fme, Fme(s, Now()))
      modifies this`r1
      ensures SameOn(2, r1, R1(s, Now()))
    {
      hide Ein, Permute, Fae, Fmi, Fme;
      var n := s.Extents();
      r1 := Into(r1, "ia", "e", "ie", t1, "ae", fae, 1.0, false);
      EinSame(n, "ia", "e", "ie", t1, t1, "ae", fae, Fae(s, Now()));
      r1 := Into(r1, "ia", "m", "ma", t1, "mi", fmi, -1.0, true);
      EinSame(n, "ia", "m", "ma", t1, t1, "mi", fmi, Fmi(s, Now()));
      r1 := Into(r1, "ia", "me", "imae", t2, "me", fme, 1.0, true);
      EinSame(n, "ia", "me", "imae", t2, t2, "me", fme, Fme(s, Now()));
      r1 := Into(r1, "ia", "nf", "nf", t1, "naif", s.Block("ovov"), -1.0, true);
      r1 := Into(r1, "ia", "mef", "imef", t2, "maef", s.Block("ovvv"), -0.5, true);
      r1 := Into(r1, "ia", "mne", "mnae", t2, "nmei", s.Block("oovo"), -0.5, true);
    }

    method ResidualT2()
      requires Intermediates()
      modifies this`r2, this`be, this`mj, this`fae, this`fmi, this`tmp, this`imea
      ensures SameOn(4, r2, R2(s, Now()))
    {
      hide Ein, P, Tau, Fae, Fmi, Fme, Wmnij, Wabef, Wmbej, VirtualTerm, OccupiedTerm, HoleLadder, ParticleLadder,
           Ring, SinglesVirtual, SinglesOccupied;
      r2 := Axpby(1.0, s.Block("oovv"), 0.0, r2);
      AddTerms();
    }

    /** What the residuals read: every intermediate holds its oracle value. */
    ghost predicate Intermediates()
      reads this
    {
      && SameOn(4, tau, Tau(s, Now()))
      && SameOn(2, fae, Fae(s, Now())) && SameOn(2, fmi, Fmi(s, Now())) && SameOn(2, fme, Fme(s, Now()))
      && SameOn(4, wmnij, Wmnij(s, Now())) && SameOn(4, wabef, Wabef(s, Now())) && SameOn(4, wmbej, Wmbej(s, Now()))
    }

    /** Overwrites Fae and Fmi on the way: both are read for the last time here. */
    method AddTerms()
      requires Intermediates()
      modifies this`r2, this`be, this`mj, this`fae, this`fmi, this`tmp, this`imea
      ensures forall x | |x| == 4 :: r2(x) == old(r2)(x) + VirtualTerm(s, Now())(x) - OccupiedTerm(s, Now())(x)
                + 0.5 * HoleLadder(s, Now())(x) + 0.5 * ParticleLadder(s, Now())(x)
                + P(P(Ring(s, Now()), 2, 3), 0, 1)(x) + SinglesVirtual(s, Now())(x) - SinglesOccupied(s, Now())(x)
    {
      hide Ein, P, SameOn, Tau, Fae, Fmi, Fme, Wmnij, Wabef, Wmbej, VirtualTerm, OccupiedTerm, HoleLadder,
           ParticleLadder, Ring, SinglesVirtual, SinglesOccupied;
      AddVirtual();
      SubtractOccupied();
      AddLadders();
      AddRing();
      AddSingles();
    }

    method AddVirtual()
      requires SameOn(2, fae, Fae(s, Now())) && SameOn(2, fme, Fme(s, Now()))
      modifies this`r2, this`be, this`fae, this`tmp
      ensures forall x | |x| == 4 :: r2(x) == old(r2)(x) + VirtualTerm(s, Now())(x)
    {
      hide Ein, Permute, P, Fae, Fme, FaeDressed;
      DressFae();
      tmp := Into(tmp, "ijab", "e", "ijae", t2, "be", fae, 1.0, false);
      EinSame(s.Extents(), "ijab", "e", "ijae", t2, t2, "be", fae, FaeDressed(s, Now()));
      AccumulateAntisymmetrized("ijba", "ijab", r2, tmp, s.E("ijab", "e", "ijae", t2, "be", FaeDressed(s, Now())),
                                1.0, 2, 3);
      r2 := Axpby(1.0, tmp, 1.0, r2);
      r2 := Permute("ijba", "ijab", r2, tmp, 1.0, -1.0);
    }

    method DressFae()
      requires SameOn(2, fae, Fae(s, Now())) && SameOn(2, fme, Fme(s, Now()))
      modifies this`be, this`fae
      ensures SameOn(2, fae, FaeDressed(s, Now()))
    {
      hide Ein, Fae, Fme;
      be := Into(be, "be", "m", "mb", t1, "me", fme, 1.0, false);
      EinSame(s.Extents(), "be", "m", "mb", t1, t1, "me", fme, Fme(s, Now()));
      fae := Axpby(-0.5, be, 1.0, fae);
    }

    method SubtractOccupied()
      requires SameOn(2, fmi, Fmi(s, Now())) && SameOn(2, fme, Fme(s, Now()))
      modifies this`r2, this`mj, this`fmi, this`tmp
      ensures forall x | |x| == 4 :: r2(x) == old(r2)(x) - OccupiedTerm(s, Now())(x)
    {
      hide Ein, Permute, P, Fmi, Fme, FmiDressed;
      DressFmi();
      tmp := Into(tmp, "ijab", "m", "imab", t2, "mj", fmi, 1.0, false);
      EinSame(s.Extents(), "ijab", "m", "imab", t2, t2, "mj", fmi, FmiDressed(s, Now()));
      AccumulateAntisymmetrized("jiab", "ijab", r2, tmp, s.E("ijab", "m", "imab", t2, "mj", FmiDressed(s, Now())),
                                -1.0, 0, 1);
      r2 := Axpby(-1.0, tmp, 1.0, r2);
      r2 := Permute("jiab", "ijab", r2, tmp, 1.0, 1.0);
    }

    method DressFmi()
      requires SameOn(2, fmi, Fmi(s, Now())) && SameOn(2, fme, Fme(s, Now()))
      modifies this`mj, this`fmi
      ensures SameOn(2, fmi, FmiDressed(s, Now()))
    {
      hide Ein, Fmi, Fme;
      mj := Into(mj, "mj", "e", "je", t1, "me", fme, 1.0, false);
      EinSame(s.Extents(), "mj", "e", "je", t1, t1, "me", fme, Fme(s, Now()));
      fmi := Axpby(0.5, mj, 1.0, fmi);
    }

    method AddLadders()
      requires SameOn(4, tau, Tau(s, Now())) && SameOn(4, wmnij, Wmnij(s, Now())) && SameOn(4, wabef, Wabef(s, Now()))
      modifies this`r2
      ensures forall x | |x| == 4 :: r2(x)
                == old(r2)(x) + 0.5 * HoleLadder(s, Now())(x) + 0.5 * ParticleLadder(s, Now())(x)
    {
      hide Ein, Permute, Tau, Wmnij, Wabef;
      r2 := Into(r2, "ijab", "mn", "mnab", tau, "mnij", wmnij, 0.5, true);
      EinSame(s.Extents(), "ijab", "mn", "mnab", tau, Tau(s, Now()), "mnij", wmnij, Wmnij(s, Now()));
      r2 := Into(r2, "ijab", "ef", "ijef", tau, "abef", wabef, 0.5, true);
      EinSame(s.Extents(), "ijab", "ef", "ijef", tau, Tau(s, Now()), "abef", wabef, Wabef(s, Now()));
    }

    method AddRing()
      requires SameOn(4, wmbej, Wmbej(s, Now()))
      modifies this`r2, this`tmp, this`imea
      ensures forall x | |x| == 4 :: r2(x) == old(r2)(x) + P(P(Ring(s, Now()), 2, 3), 0, 1)(x)
    {
      hide Ein, Permute, P, Wmbej;
      tmp := Into(tmp, "ijab", "me", "imae", t2, "mbej", wmbej, 1.0, false);
      EinSame(s.Extents(), "ijab", "me", "imae", t2, t2, "mbej", wmbej, Wmbej(s, Now()));
      imea := Into(imea, "imea", "", "ie", t1, "ma", t1, 1.0, false);
      tmp := Into(tmp, "ijab", "me", "imea", imea, "mbej", s.Block("ovvo"), -1.0, true);
      SinglesProductFactored(s, imea, t1);
      assert SameOn(4, tmp, Ring(s, Now()));
      hide Ring;
      AccumulateBothAntisymmetrized(r2, tmp, Ring(s, Now()));
      r2 := Axpby(1.0, tmp, 1.0, r2);
      r2 := Permute("jiab", "ijab", r2, tmp, 1.0, -1.0);
      r2 := Permute("ijba", "ijab", r2, tmp, 1.0, -1.0);
      r2 := Permute("jiba", "ijab", r2, tmp, 1.0, 1.0);
    }

    method AddSingles()
      modifies this`r2, this`tmp
      ensures forall x | |x| == 4 :: r2(x) == old(r2)(x) + SinglesVirtual(s, Now())(x) - SinglesOccupied(s, Now())(x)
    {
      hide Ein, Permute, P;
      tmp := Into(tmp, "ijab", "e", "ie", t1, "abej", s.Block("vvvo"), 1.0, false);
      AccumulateAntisymmetrized("jiab", "ijab", r2, tmp, s.E("ijab", "e", "ie", t1, "abej", s.Block("vvvo")), 1.0, 0,
                                1);
      r2 := Axpby(1.0, tmp, 1.0, r2);
      r2 := Permute("jiab", "ijab", r2, tmp, 1.0, -1.0);
      tmp := Into(tmp, "ijab", "m", "ma", t1, "mbij", s.Block("ovoo"), 1.0, false);
      AccumulateAntisymmetrized("ijba", "ijab", r2, tmp, s.E("ijab", "m", "ma", t1, "mbij", s.Block("ovoo")), -1.0,
                                2, 3);
      r2 := Axpby(-1.0, tmp, 1.0, r2);
      r2 := Permute("ijba", "ijab", r2, tmp, 1.0, 1.0);
    }

    /** s = new - t, then t += s. */
    method Update()
      requires SameOn(2, r1, R1(s, Now())) && SameOn(4, r2, R2(s, Now()))
      modifies this`t1, this`t2, this`s1, this`s2
      ensures SameOn(2, t1, Step(s, old(Now())).t1) && SameOn(4, t2, Step(s, old(Now())).t2)
      ensures forall x :: s1(x) == t1(x) - old(t1)(x)
      ensures forall x :: s2(x) == t2(x) - old(t2)(x)
    {
      hide R1, R2;
      s1 := DirectDivision(1.0, r1, s.Dia(), 0.0, s1);
      s1 := Axpby(-1.0, t1, 1.0, s1);
      t1 := Axpby(1.0, s1, 1.0, t1);
      s2 := DirectDivision(1.0, r2, s.Dijab(), 0.0, s2);
      s2 := Axpby(-1.0, t2, 1.0, s2);
      t2 := Axpby(1.0, s2, 1.0, t2);
    }

    /** The correlation energy of the updated amplitudes, its singles part through one intermediate. */
    method Correlate()
      modifies this`ecorr, this`ePart, this`xe
      ensures ecorr == Energy(s, Now())
    {
      hide Ein, Over;
      ecorr := Dot(s.Extents(), "ijab", s.Block("oovv"), t2);
      ecorr := 0.25 * ecorr;
      xe := Into(xe, "jb", "ia", "ijab", s.Block("oovv"), "ia", t1, 1.0, false);
      ePart := Dot(s.Extents(), "jb", xe, t1);
      ecorr := 0.5 * ePart + ecorr;
      SinglesEnergyFactored(s, xe, t1);
    }
  }

  lemma OuterTransposed(s: System, t1: Val, x: seq<int>)
    requires |x| == 4
    ensures OuterJA(s, t1)(x) == OuterJB(s, t1)(Exchange(x, 2, 3))
  {
    hide OuterJB, OuterJA, Wedge;
    OuterElement(s, t1, x);
    OuterElement(s, t1, Exchange(x, 2, 3));
  }

  /** Adding a tensor and subtracting its permuted copy accumulates the antisymmetrized tensor. */
  lemma AccumulateAntisymmetrized(to: string, from: string, dst: Val, src: Val, term: Val, c: real, p: nat, q: nat)
    requires |to| == 4 && DiffersByExchange(to, from, p, q) && SameOn(4, src, term)
    ensures forall x {:trigger Permute(to, from, Axpby(c, src, 1.0, dst), src, 1.0, -c)(x)} | |x| == 4 ::
              Permute(to, from, Axpby(c, src, 1.0, dst), src, 1.0, -c)(x) == dst(x) + c * P(term, p, q)(x)
  {
    hide Permute;
    var r := Axpby(c, src, 1.0, dst);
    PermuteExchanges(to, from, r, src, 1.0, -c, p, q);
    forall x: seq<int> | |x| == 4
      ensures Permute(to, from, r, src, 1.0, -c)(x) == dst(x) + c * P(term, p, q)(x)
    {
      var u, v := term(x), term(Exchange(x, p, q));
      assert src(x) == u && src(Exchange(x, p, q)) == v;
      assert c * u + (-c) * v == c * (u - v);
    }
  }

  /** The four signed accumulations of P(ij) P(ab). */
  lemma AccumulateBothAntisymmetrized(dst: Val, src: Val, term: Val)
    requires SameOn(4, src, term)
    ensures var r := Permute("jiab", "ijab", Axpby(1.0, src, 1.0, dst), src, 1.0, -1.0);
            var r' := Permute("ijba", "ijab", r, src, 1.0, -1.0);
            forall x {:trigger Permute("jiba", "ijab", r', src, 1.0, 1.0)(x)} | |x| == 4 ::
              Permute("jiba", "ijab", r', src, 1.0, 1.0)(x) == dst(x) + P(P(term, 2, 3), 0, 1)(x)
  {
    hide Permute;
    var r := Permute("jiab", "ijab", Axpby(1.0, src, 1.0, dst), src, 1.0, -1.0);
    var r' := Permute("ijba", "ijab", r, src, 1.0, -1.0);
    PermuteExchanges("jiab", "ijab", Axpby(1.0, src, 1.0, dst), src, 1.0, -1.0, 0, 1);
    PermuteExchanges("ijba", "ijab", r, src, 1.0, -1.0, 2, 3);
    forall x: seq<int> | |x| == 4
      ensures Permute("jiba", "ijab", r', src, 1.0, 1.0)(x) == dst(x) + P(P(term, 2, 3), 0, 1)(x)
    {
      PermuteBothPairs(r', src, x);
      assert src(x) == term(x) && src(Exchange(x, 0, 1)) == term(Exchange(x, 0, 1));
      assert src(Exchange(x, 2, 3)) == term(Exchange(x, 2, 3));
      assert src(Exchange(Exchange(x, 0, 1), 2, 3)) == term(Exchange(Exchange(x, 0, 1), 2, 3));
    }
  }

  lemma PermuteBothPairs(dst: Val, src: Val, x: seq<int>)
    requires |x| == 4
    ensures Permute("jiba", "ijab", dst, src, 1.0, 1.0)(x) == dst(x) + src(Exchange(Exchange(x, 0, 1), 2, 3))
  {
    hide Bind;
    LookExchangesTwice("jiba", "ijba", "ijab", x, 0, 1, 2, 3);
  }

  /** Contracting the stored product imea = t1 t1 is the three-operand contraction. */
  lemma SinglesProductFactored(s: System, imea: Val, t1: Val)
    requires forall x | |x| == 4 :: imea(x) == s.E("imea", "", "ie", t1, "ma", t1)(x)
    ensures forall x :: s.E("ijab", "me", "imea", imea, "mbej", s.Block("ovvo"))(x)
                     == Ein(s.Extents(), "ijab", "me", [Op("ie", t1), Op("ma", t1), Op("mbej", s.Block("ovvo"))])(x)
  {
    hide Over, Term;
    var singles, rest := [Op("ie", t1), Op("ma", t1)], [Op("mbej", s.Block("ovvo"))];
    assert "me" + "" == "me" && singles + rest == [Op("ie", t1), Op("ma", t1), Op("mbej", s.Block("ovvo"))];
    assert [Op("imea", imea)] + rest == [Op("imea", imea), Op("mbej", s.Block("ovvo"))];
    forall x
      ensures s.E("ijab", "me", "imea", imea, "mbej", s.Block("ovvo"))(x)
           == Ein(s.Extents(), "ijab", "me", singles + rest)(x)
    {
      StoredIntermediate(s.Extents(), "me", "imea", "", imea, singles, rest, Bind("ijab", x));
    }
  }

  /** Contracting oovv with t1 first and the result with t1 again is the three-operand energy. */
  lemma SinglesEnergyFactored(s: System, xe: Val, t1: Val)
    requires forall x | |x| == 2 :: xe(x) == s.E("jb", "ia", "ijab", s.Block("oovv"), "ia", t1)(x)
    ensures Dot(s.Extents(), "jb", xe, t1)
         == Over(s.Extents(), "ijab", map[], [Op("ijab", s.Block("oovv")), Op("ia", t1), Op("jb", t1)])
  {
    hide Over, Term;
    var first, rest := [Op("ijab", s.Block("oovv")), Op("ia", t1)], [Op("jb", t1)];
    assert first + rest == [Op("ijab", s.Block("oovv")), Op("ia", t1), Op("jb", t1)];
    assert [Op("jb", xe)] + rest == [Op("jb", xe), Op("jb", t1)];
    StoredIntermediate(s.Extents(), "jb", "jb", "ia", xe, first, rest, map[]);
    PairOrder(s.Extents(), first + rest);
  }

  lemma PairOrder(n: Extents, ops: seq<Operand>)
    ensures Over(n, "jb" + "ia", map[], ops) == Over(n, "ijab", map[], ops)
  {
    hide Over;
    assert "jb" + "ia" == "jbia";
    OrderOfLabels(n, "jbia", "ijab", map[], ops);
  }
}
