/** The iteration and the correction depend on the amplitudes only through their elements, so replays that keep the
    oracle's elements keep the oracle's run. */
module Congruence {
  import opened Sums
  import opened Einsum
  import opened SpinOrbital
  import opened Ccsd
  import opened Triples

  /** The same singles and doubles, element by element. */
  ghost predicate SameAmps(t: Amps, u: Amps) { SameOn(2, t.t1, u.t1) && SameOn(4, t.t2, u.t2) }

  /** The same element at every index. */
  ghost predicate Same(a: Val, b: Val) { forall x :: a(x) == b(x) }

  lemma ESame(s: System, out: string, summed: string, ia: string, a: Val, a': Val, ib: string, b: Val, b': Val)
    requires SameOn(|ia|, a, a') && SameOn(|ib|, b, b')
    ensures Same(s.E(out, summed, ia, a, ib, b), s.E(out, summed, ia, a', ib, b'))
  {
    hide Ein;
    EinSame(s.Extents(), out, summed, ia, a, a', ib, b, b');
  }

  lemma PSame(rank: nat, a: Val, a': Val, p: nat, q: nat)
    requires SameOn(rank, a, a')
    ensures SameOn(rank, P(a, p, q), P(a', p, q))
  {
    forall x: seq<int> | |x| == rank
      ensures P(a, p, q)(x) == P(a', p, q)(x)
    {
      assert a(Exchange(x, p, q)) == a'(Exchange(x, p, q));
    }
  }

  lemma TauSame(s: System, t: Amps, u: Amps)
    requires SameAmps(t, u)
    ensures SameOn(4, Tau(s, t), Tau(s, u)) && SameOn(4, TauTilde(s, t), TauTilde(s, u))
  {
    hide Ein;
    ESame(s, "ijab", "", "ia", t.t1, u.t1, "jb", t.t1, u.t1);
    ESame(s, "ijab", "", "ib", t.t1, u.t1, "ja", t.t1, u.t1);
  }

  lemma FSame(s: System, t: Amps, u: Amps)
    requires SameAmps(t, u)
    ensures SameOn(2, Fae(s, t), Fae(s, u)) && SameOn(2, Fmi(s, t), Fmi(s, u)) && SameOn(2, Fme(s, t), Fme(s, u))
  {
    hide Ein, TauTilde, Tau;
    TauSame(s, t, u);
    var oovv := s.Block("oovv");
    ESame(s, "ae", "mf", "mf", t.t1, u.t1, "amef", s.Block("vovv"), s.Block("vovv"));
    ESame(s, "ae", "mnf", "mnaf", TauTilde(s, t), TauTilde(s, u), "mnef", oovv, oovv);
    ESame(s, "mi", "ne", "ne", t.t1, u.t1, "mnie", s.Block("ooov"), s.Block("ooov"));
    ESame(s, "mi", "nef", "inef", TauTilde(s, t), TauTilde(s, u), "mnef", oovv, oovv);
    ESame(s, "me", "nf", "nf", t.t1, u.t1, "mnef", oovv, oovv);
  }

  lemma FDressedSame(s: System, t: Amps, u: Amps)
    requires SameAmps(t, u)
    ensures SameOn(2, FaeDressed(s, t), FaeDressed(s, u)) && SameOn(2, FmiDressed(s, t), FmiDressed(s, u))
  {
    hide Ein, Fae, Fmi, Fme;
    FSame(s, t, u);
    ESame(s, "be", "m", "mb", t.t1, u.t1, "me", Fme(s, t), Fme(s, u));
    ESame(s, "mj", "e", "je", t.t1, u.t1, "me", Fme(s, t), Fme(s, u));
  }

  lemma WmnijSame(s: System, t: Amps, u: Amps)
    requires SameAmps(t, u)
    ensures SameOn(4, Wmnij(s, t), Wmnij(s, u))
  {
    hide Ein, Tau, P;
    TauSame(s, t, u);
    var a, b := s.E("mnij", "e", "je", t.t1, "mnie", s.Block("ooov")),
        s.E("mnij", "e", "je", u.t1, "mnie", s.Block("ooov"));
    ESame(s, "mnij", "e", "je", t.t1, u.t1, "mnie", s.Block("ooov"), s.Block("ooov"));
    PSame(4, a, b, 2, 3);
    ESame(s, "mnij", "ef", "ijef", Tau(s, t), Tau(s, u), "mnef", s.Block("oovv"), s.Block("oovv"));
  }

  lemma WabefSame(s: System, t: Amps, u: Amps)
    requires SameAmps(t, u)
    ensures SameOn(4, Wabef(s, t), Wabef(s, u))
  {
    hide Ein, Tau, P;
    TauSame(s, t, u);
    var a, b := s.E("abef", "m", "mb", t.t1, "amef", s.Block("vovv")),
        s.E("abef", "m", "mb", u.t1, "amef", s.Block("vovv"));
    ESame(s, "abef", "m", "mb", t.t1, u.t1, "amef", s.Block("vovv"), s.Block("vovv"));
    PSame(4, a, b, 0, 1);
    ESame(s, "abef", "mn", "mnab", Tau(s, t), Tau(s, u), "mnef", s.Block("oovv"), s.Block("oovv"));
  }

  lemma WmbejSame(s: System, t: Amps, u: Amps)
    requires SameAmps(t, u)
    ensures SameOn(4, Wmbej(s, t), Wmbej(s, u))
  {
    hide Ein;
    ESame(s, "jnfb", "", "jf", t.t1, u.t1, "nb", t.t1, u.t1);
    ESame(s, "mbej", "f", "jf", t.t1, u.t1, "mbef", s.Block("ovvv"), s.Block("ovvv"));
    ESame(s, "mbej", "n", "nb", t.t1, u.t1, "mnej", s.Block("oovo"), s.Block("oovo"));
    ESame(s, "mbej", "nf", "jnfb", Jnfb(s, t), Jnfb(s, u), "mnef", s.Block("oovv"), s.Block("oovv"));
  }

  lemma R1Same(s: System, t: Amps, u: Amps)
    requires SameAmps(t, u)
    ensures SameOn(2, R1(s, t), R1(s, u))
  {
    hide Ein, Fae, Fmi, Fme;
    FSame(s, t, u);
    ESame(s, "ia", "e", "ie", t.t1, u.t1, "ae", Fae(s, t), Fae(s, u));
    ESame(s, "ia", "m", "ma", t.t1, u.t1, "mi", Fmi(s, t), Fmi(s, u));
    ESame(s, "ia", "me", "imae", t.t2, u.t2, "me", Fme(s, t), Fme(s, u));
    ESame(s, "ia", "nf", "nf", t.t1, u.t1, "naif", s.Block("ovov"), s.Block("ovov"));
    ESame(s, "ia", "mef", "imef", t.t2, u.t2, "maef", s.Block("ovvv"), s.Block("ovvv"));
    ESame(s, "ia", "mne", "mnae", t.t2, u.t2, "nmei", s.Block("oovo"), s.Block("oovo"));
  }

  lemma DressedTermsSame(s: System, t: Amps, u: Amps)
    requires SameAmps(t, u)
    ensures SameOn(4, VirtualTerm(s, t), VirtualTerm(s, u)) && SameOn(4, OccupiedTerm(s, t), OccupiedTerm(s, u))
  {
    hide Ein, P, FaeDressed, FmiDressed;
    FDressedSame(s, t, u);
    ESame(s, "ijab", "e", "ijae", t.t2, u.t2, "be", FaeDressed(s, t), FaeDressed(s, u));
    ESame(s, "ijab", "m", "imab", t.t2, u.t2, "mj", FmiDressed(s, t), FmiDressed(s, u));
    PSame(4, s.E("ijab", "e", "ijae", t.t2, "be", FaeDressed(s, t)),
          s.E("ijab", "e", "ijae", u.t2, "be", FaeDressed(s, u)), 2, 3);
    PSame(4, s.E("ijab", "m", "imab", t.t2, "mj", FmiDressed(s, t)),
          s.E("ijab", "m", "imab", u.t2, "mj", FmiDressed(s, u)), 0, 1);
  }

  lemma LaddersSame(s: System, t: Amps, u: Amps)
    requires SameAmps(t, u)
    ensures SameOn(4, HoleLadder(s, t), HoleLadder(s, u)) && SameOn(4, ParticleLadder(s, t), ParticleLadder(s, u))
  {
    hide Ein, Tau, TauTilde, Wmnij, Wabef;
    TauSame(s, t, u);
    WmnijSame(s, t, u);
    WabefSame(s, t, u);
    ESame(s, "ijab", "mn", "mnab", Tau(s, t), Tau(s, u), "mnij", Wmnij(s, t), Wmnij(s, u));
    ESame(s, "ijab", "ef", "ijef", Tau(s, t), Tau(s, u), "abef", Wabef(s, t), Wabef(s, u));
  }

  lemma Ein3Same(n: Extents, out: string, summed: string, ia: string, a: Val, a': Val, ib: string, ic: string, c: Val)
    requires SameOn(|ia|, a, a') && |ib| == |ia|
    ensures Same(Ein(n, out, summed, [Op(ia, a), Op(ib, a), Op(ic, c)]),
                 Ein(n, out, summed, [Op(ia, a'), Op(ib, a'), Op(ic, c)]))
  {
    hide Over, Term;
    forall e
      ensures Term(e, [Op(ia, a), Op(ib, a), Op(ic, c)]) == Term(e, [Op(ia, a'), Op(ib, a'), Op(ic, c)])
    {
      Term3(e, Op(ia, a), Op(ib, a), Op(ic, c));
      Term3(e, Op(ia, a'), Op(ib, a'), Op(ic, c));
    }
    forall x
      ensures Ein(n, out, summed, [Op(ia, a), Op(ib, a), Op(ic, c)])(x)
                == Ein(n, out, summed, [Op(ia, a'), Op(ib, a'), Op(ic, c)])(x)
    {
      OverDependsOnTerms(n, summed, Bind(out, x), [Op(ia, a), Op(ib, a), Op(ic, c)],
                         [Op(ia, a'), Op(ib, a'), Op(ic, c)]);
    }
  }

  lemma RingSame(s: System, t: Amps, u: Amps)
    requires SameAmps(t, u)
    ensures SameOn(4, P(P(Ring(s, t), 2, 3), 0, 1), P(P(Ring(s, u), 2, 3), 0, 1))
  {
    hide Ein, P, Wmbej;
    WmbejSame(s, t, u);
    ESame(s, "ijab", "me", "imae", t.t2, u.t2, "mbej", Wmbej(s, t), Wmbej(s, u));
    Ein3Same(s.Extents(), "ijab", "me", "ie", t.t1, u.t1, "ma", "mbej", s.Block("ovvo"));
    PSame(4, Ring(s, t), Ring(s, u), 2, 3);
    PSame(4, P(Ring(s, t), 2, 3), P(Ring(s, u), 2, 3), 0, 1);
  }

  lemma SinglesTermsSame(s: System, t: Amps, u: Amps)
    requires SameAmps(t, u)
    ensures SameOn(4, SinglesVirtual(s, t), SinglesVirtual(s, u)) &&
            SameOn(4, SinglesOccupied(s, t), SinglesOccupied(s, u))
  {
    hide Ein, P;
    var vvvo, ovoo := s.Block("vvvo"), s.Block("ovoo");
    ESame(s, "ijab", "e", "ie", t.t1, u.t1, "abej", vvvo, vvvo);
    ESame(s, "ijab", "m", "ma", t.t1, u.t1, "mbij", ovoo, ovoo);
    PSame(4, s.E("ijab", "e", "ie", t.t1, "abej", vvvo), s.E("ijab", "e", "ie", u.t1, "abej", vvvo), 0, 1);
    PSame(4, s.E("ijab", "m", "ma", t.t1, "mbij", ovoo), s.E("ijab", "m", "ma", u.t1, "mbij", ovoo), 2, 3);
  }

  /** One iteration from the same amplitudes gives the same amplitudes. */
  lemma StepSame(s: System, t: Amps, u: Amps)
    requires SameAmps(t, u)
    ensures SameAmps(Step(s, t), Step(s, u))
  {
    hide Ein, P, R1, VirtualTerm, OccupiedTerm, HoleLadder, ParticleLadder, Ring, SinglesVirtual, SinglesOccupied;
    R1Same(s, t, u);
    DressedTermsSame(s, t, u);
    LaddersSame(s, t, u);
    RingSame(s, t, u);
    SinglesTermsSame(s, t, u);
    assert SameOn(4, R2(s, t), R2(s, u));
  }

  /** The same amplitudes have the same correlation energy. */
  lemma EnergySame(s: System, t: Amps, u: Amps)
    requires SameAmps(t, u)
    ensures Energy(s, t) == Energy(s, u)
  {
    hide Over, Term;
    var n, g := s.Extents(), s.Block("oovv");
    forall e
      ensures Term(e, [Op("ijab", g), Op("ijab", t.t2)]) == Term(e, [Op("ijab", g), Op("ijab", u.t2)])
      ensures Term(e, [Op("ijab", g), Op("ia", t.t1), Op("jb", t.t1)])
                == Term(e, [Op("ijab", g), Op("ia", u.t1), Op("jb", u.t1)])
    {
      Term2(e, Op("ijab", g), Op("ijab", t.t2));
      Term2(e, Op("ijab", g), Op("ijab", u.t2));
      Term3(e, Op("ijab", g), Op("ia", t.t1), Op("jb", t.t1));
      Term3(e, Op("ijab", g), Op("ia", u.t1), Op("jb", u.t1));
    }
    OverDependsOnTerms(n, "ijab", map[], [Op("ijab", g), Op("ijab", t.t2)], [Op("ijab", g), Op("ijab", u.t2)]);
    OverDependsOnTerms(n, "ijab", map[], [Op("ijab", g), Op("ia", t.t1), Op("jb", t.t1)],
                       [Op("ijab", g), Op("ia", u.t1), Op("jb", u.t1)]);
  }

  lemma P3Same(a: Val, b: Val, p: nat, q: nat, r: nat)
    requires SameOn(6, a, b)
    ensures SameOn(6, P3(a, p, q, r), P3(b, p, q, r))
  {
    forall x: seq<int> | |x| == 6
      ensures P3(a, p, q, r)(x) == P3(b, p, q, r)(x)
    {
      assert a(Exchange(x, p, q)) == b(Exchange(x, p, q)) && a(Exchange(x, p, r)) == b(Exchange(x, p, r));
    }
  }

  lemma TriplesSame(s: System, t: Amps, u: Amps)
    requires SameAmps(t, u)
    ensures SameOn(6, W(s, t), W(s, u)) && SameOn(6, V(s, t), V(s, u))
  {
    hide Ein, P3;
    ESame(s, "ijkabc", "e", "jkae", t.t2, u.t2, "eibc", s.Block("vovv"), s.Block("vovv"));
    ESame(s, "ijkabc", "m", "imbc", t.t2, u.t2, "majk", s.Block("ovoo"), s.Block("ovoo"));
    ESame(s, "ijkabc", "", "ia", t.t1, u.t1, "jkbc", s.Block("oovv"), s.Block("oovv"));
    P3Same(Xc(s, t), Xc(s, u), 0, 1, 2);
    P3Same(P3(Xc(s, t), 0, 1, 2), P3(Xc(s, u), 0, 1, 2), 3, 4, 5);
    P3Same(Xd(s, t), Xd(s, u), 0, 1, 2);
    P3Same(P3(Xd(s, t), 0, 1, 2), P3(Xd(s, u), 0, 1, 2), 3, 4, 5);
  }

  lemma SummandSame(s: System, t: Amps, u: Amps, x: seq<int>)
    requires W(s, t)(x) == W(s, u)(x) && V(s, t)(x) == V(s, u)(x)
    ensures Summand(s, t)(x) == Summand(s, u)(x)
  {
    hide W, V;
    var w, v := W(s, t)(x), V(s, t)(x);
    assert Product(W(s, t), Plus(W(s, t), V(s, t)))(x) == w * (w + v);
    assert Product(W(s, u), Plus(W(s, u), V(s, u)))(x) == w * (w + v);
  }

  /** The same amplitudes have the same triples correction. */
  lemma NaiveSame(s: System, t: Amps, u: Amps)
    requires SameAmps(t, u)
    ensures Naive(s, t) == Naive(s, u)
  {
    hide Sum6, W, V, SameAmps, Summand;
    TriplesSame(s, t, u);
    forall x: seq<int> | |x| == 6
      ensures Summand(s, t)(x) == Summand(s, u)(x)
    {
      SummandSame(s, t, u, x);
    }
    Sum6Linear(s, 1.0, Summand(s, t), 0.0, Summand(s, t), Summand(s, u));
  }

  /** No weights: the plain iterations. */
  function NoWeights(iterations: nat): (w: seq<seq<real>>)
    ensures |w| == iterations && forall k | 0 <= k < iterations :: w[k] == []
  {
    seq(iterations, _ => [])
  }

  /** The oracle's amplitudes after a number of plain iterations. */
  function Plain(s: System, iterations: nat): Amps { Run(s, NoWeights(iterations)).current }

  lemma PlainNext(s: System, n: nat)
    ensures Plain(s, 0) == Start(s) && Plain(s, n + 1) == Step(s, Plain(s, n))
  {
    hide Step, Start, Combine;
    assert NoWeights(n + 1)[..n] == NoWeights(n);
  }

  function Weighted(c: seq<real>, h: seq<Amps>, x: seq<int>): int -> real {
    k => if 0 <= k < |c| && k < |h| then c[k] * h[k].t2(x) else 0.0
  }

  /** An extrapolant adds up the held amplitudes, each with its weight. */
  lemma {:induction false} CombineIs(c: seq<real>, h: seq<Amps>, x: seq<int>)
    requires |c| == |h|
    ensures Combine(c, h).t2(x) == Sum(0, |c|, Weighted(c, h, x))
    decreases |c|
  {
    if |c| > 0 {
      CombineIs(c[1..], h[1..], x);
      WeightedTail(c, h, x, 1);
      var f := Weighted(c, h, x);
      assert Sum(0, |c|, f) == f(0) + Sum(1, |c|, f);
      assert Combine(c, h).t2(x) == c[0] * h[0].t2(x) + Combine(c[1..], h[1..]).t2(x);
    }
  }

  lemma {:induction false} WeightedTail(c: seq<real>, h: seq<Amps>, x: seq<int>, lo: int)
    requires |c| == |h| > 0 && 1 <= lo
    ensures Sum(lo - 1, |c| - 1, Weighted(c[1..], h[1..], x)) == Sum(lo, |c|, Weighted(c, h, x))
    decreases |c| - lo
  {
    if lo < |c| {
      WeightedTail(c, h, x, lo + 1);
    }
  }
}
