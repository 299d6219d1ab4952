/** The triples correction written out: its elements as sums of products of amplitudes and integrals, its energy as a
    sum over ordered triples, its sign, and its value for three occupied and three virtual spin orbitals. */
module TriplesEquations {
  import opened Sums
  import opened Einsum
  import opened EinsumSums
  import opened SpinOrbital
  import opened Ccsd
  import opened Triples
  import TriplesGraph

  // ---- elements -------------------------------------------------------------------------------

  function Particle(s: System, t: Amps, i: int, j: int, k: int, a: int, b: int, c: int): int -> real {
    e => t.t2([j, k, a, e]) * s.g([s.no + e, i, s.no + b, s.no + c])
  }

  function Hole(s: System, t: Amps, i: int, j: int, k: int, a: int, b: int, c: int): int -> real {
    m => t.t2([i, m, b, c]) * s.g([m, s.no + a, j, k])
  }

  /** sum_e t[jkae] <ei||bc> - sum_m t[imbc] <ma||jk> */
  function Connected(s: System, t: Amps, i: int, j: int, k: int, a: int, b: int, c: int): real {
    Sum(0, s.nv, Particle(s, t, i, j, k, a, b, c)) - Sum(0, s.no, Hole(s, t, i, j, k, a, b, c))
  }

  /** t[ia] <jk||bc> */
  function Disconnected(s: System, t: Amps, i: int, j: int, k: int, a: int, b: int, c: int): real {
    t.t1([i, a]) * s.g([j, k, s.no + b, s.no + c])
  }

  type Six = (int, int, int, int, int, int) -> real

  /** P(i/jk) P(a/bc), nine terms. */
  function Nine(f: Six, i: int, j: int, k: int, a: int, b: int, c: int): real {
    f(i, j, k, a, b, c) - f(j, i, k, a, b, c) - f(k, j, i, a, b, c)
    - f(i, j, k, b, a, c) + f(j, i, k, b, a, c) + f(k, j, i, b, a, c)
    - f(i, j, k, c, b, a) + f(j, i, k, c, b, a) + f(k, j, i, c, b, a)
  }

  function AllConnected(s: System, t: Amps): Six { (i, j, k, a, b, c) => Connected(s, t, i, j, k, a, b, c) }
  function AllDisconnected(s: System, t: Amps): Six { (i, j, k, a, b, c) => Disconnected(s, t, i, j, k, a, b, c) }

  lemma ParticleElement(s: System, t: Amps, i: int, j: int, k: int, a: int, b: int, c: int)
    ensures s.E("ijkabc", "e", "jkae", t.t2, "eibc", s.Block("vovv"))([i, j, k, a, b, c])
         == Sum(0, s.nv, Particle(s, t, i, j, k, a, b, c))
  {
    hide Look, Get, s.Block, Sum;
    var u, w := Op("jkae", t.t2), Op("eibc", s.Block("vovv"));
    forall env, e | Bound(env, "ijkabc" + "e", [i, j, k, a, b, c] + [e])
      ensures Particle(s, t, i, j, k, a, b, c)(e) == Both(env, u, w)
    {
      Reads(env, "ijkabc" + "e", [i, j, k, a, b, c] + [e]);
      Look4(env, "jkae", j, k, a, e);
      Look4(env, "eibc", e, i, b, c);
      BlocksRead(s, e, i, b, c);
    }
    OneSummed(s.Extents(), "ijkabc", "e", [i, j, k, a, b, c], u, w, Particle(s, t, i, j, k, a, b, c));
  }

  lemma HoleElement(s: System, t: Amps, i: int, j: int, k: int, a: int, b: int, c: int)
    ensures s.E("ijkabc", "m", "imbc", t.t2, "majk", s.Block("ovoo"))([i, j, k, a, b, c])
         == Sum(0, s.no, Hole(s, t, i, j, k, a, b, c))
  {
    hide Look, Get, s.Block, Sum;
    var u, w := Op("imbc", t.t2), Op("majk", s.Block("ovoo"));
    forall env, m | Bound(env, "ijkabc" + "m", [i, j, k, a, b, c] + [m])
      ensures Hole(s, t, i, j, k, a, b, c)(m) == Both(env, u, w)
    {
      Reads(env, "ijkabc" + "m", [i, j, k, a, b, c] + [m]);
      Look4(env, "imbc", i, m, b, c);
      Look4(env, "majk", m, a, j, k);
      BlocksRead(s, m, a, j, k);
    }
    OneSummed(s.Extents(), "ijkabc", "m", [i, j, k, a, b, c], u, w, Hole(s, t, i, j, k, a, b, c));
  }

  lemma ConnectedElement(s: System, t: Amps, i: int, j: int, k: int, a: int, b: int, c: int)
    ensures Xc(s, t)([i, j, k, a, b, c]) == Connected(s, t, i, j, k, a, b, c)
  {
    hide Sum, Ein, s.Block;
    ParticleElement(s, t, i, j, k, a, b, c);
    HoleElement(s, t, i, j, k, a, b, c);
  }

  lemma DisconnectedElement(s: System, t: Amps, i: int, j: int, k: int, a: int, b: int, c: int)
    ensures Xd(s, t)([i, j, k, a, b, c]) == Disconnected(s, t, i, j, k, a, b, c)
  {
    hide Look, Get, Ein, s.Block;
    var x := [i, j, k, a, b, c];
    var u, w := Op("ia", t.t1), Op("jkbc", s.Block("oovv"));
    forall env | Bound(env, "ijkabc", x)
      ensures Disconnected(s, t, i, j, k, a, b, c) == Both(env, u, w)
    {
      Reads(env, "ijkabc", x);
      Look2(env, "ia", i, a);
      Look4(env, "jkbc", j, k, b, c);
      BlocksRead(s, j, k, b, c);
    }
    NoneSummed(s.Extents(), "ijkabc", x, u, w, Disconnected(s, t, i, j, k, a, b, c));
  }

  /** Both antisymmetrizers, element by element. */
  lemma NineAt(x: Val, f: Six, i: int, j: int, k: int, a: int, b: int, c: int)
    requires forall i, j, k, a, b, c :: x([i, j, k, a, b, c]) == f(i, j, k, a, b, c)
    ensures Antisymmetrized6(x)([i, j, k, a, b, c]) == Nine(f, i, j, k, a, b, c)
  {
    hide Antisymmetrized6;
    TriplesGraph.NineElements(x, [i, j, k, a, b, c]);
    OneExchanged(i, j, k, a, b, c);
    OneExchanged(i, j, k, b, a, c);
    OneExchanged(i, j, k, c, b, a);
  }

  lemma OneExchanged(i: int, j: int, k: int, a: int, b: int, c: int)
    ensures Exchange([i, j, k, a, b, c], 0, 1) == [j, i, k, a, b, c]
    ensures Exchange([i, j, k, a, b, c], 0, 2) == [k, j, i, a, b, c]
    ensures Exchange([i, j, k, a, b, c], 3, 4) == [i, j, k, b, a, c]
    ensures Exchange([i, j, k, a, b, c], 3, 5) == [i, j, k, c, b, a]
  {
  }

  /** The connected and the disconnected triples, written out. */
  lemma TriplesAre(s: System, t: Amps, i: int, j: int, k: int, a: int, b: int, c: int)
    ensures W(s, t)([i, j, k, a, b, c]) == Nine(AllConnected(s, t), i, j, k, a, b, c)
    ensures V(s, t)([i, j, k, a, b, c]) == Nine(AllDisconnected(s, t), i, j, k, a, b, c)
  {
    hide Antisymmetrized6, Nine, Xc, Xd, Connected, Disconnected;
    forall i, j, k, a, b, c
      ensures Xc(s, t)([i, j, k, a, b, c]) == AllConnected(s, t)(i, j, k, a, b, c)
      ensures Xd(s, t)([i, j, k, a, b, c]) == AllDisconnected(s, t)(i, j, k, a, b, c)
    {
      ConnectedElement(s, t, i, j, k, a, b, c);
      DisconnectedElement(s, t, i, j, k, a, b, c);
    }
    NineAt(Xc(s, t), AllConnected(s, t), i, j, k, a, b, c);
    NineAt(Xd(s, t), AllDisconnected(s, t), i, j, k, a, b, c);
  }

  // ---- the energy over ordered triples --------------------------------------------------------

  function Share(w: real, v: real, d: real): real { Div(w * (w + v), d) }

  /** What one ordered triple of occupied and one of virtual orbitals contributes: w (w + v) over the energies. */
  function Contribution(s: System, t: Amps, i: int, j: int, k: int): Triple {
    (a, b, c) => Share(Nine(AllConnected(s, t), i, j, k, a, b, c), Nine(AllDisconnected(s, t), i, j, k, a, b, c),
                       s.eo(i) + s.eo(j) + s.eo(k) - s.ev(a) - s.ev(b) - s.ev(c))
  }

  function OfTriple(s: System, t: Amps): Triple {
    (i, j, k) => OrderedTriples(0, s.nv, Contribution(s, t, i, j, k))
  }

  lemma ContributionIs(s: System, t: Amps, i: int, j: int, k: int, a: int, b: int, c: int)
    ensures Elements(Summand(s, t), i, j, k)(a, b, c) == Contribution(s, t, i, j, k)(a, b, c)
  {
    hide W, V, Nine, Div, AllConnected, AllDisconnected;
    TriplesAre(s, t, i, j, k, a, b, c);
    SummandIsShare(s, t, i, j, k, a, b, c);
  }

  lemma SummandIsShare(s: System, t: Amps, i: int, j: int, k: int, a: int, b: int, c: int)
    ensures Summand(s, t)([i, j, k, a, b, c])
         == Share(W(s, t)([i, j, k, a, b, c]), V(s, t)([i, j, k, a, b, c]),
                  s.eo(i) + s.eo(j) + s.eo(k) - s.ev(a) - s.ev(b) - s.ev(c))
  {
    hide W, V;
    var x := [i, j, k, a, b, c];
    var w, p := W(s, t)(x), Plus(W(s, t), V(s, t))(x);
    assert p == w + V(s, t)(x) && w * p == w * (w + V(s, t)(x));
    assert Product(W(s, t), Plus(W(s, t), V(s, t)))(x) == w * p;
    assert Summand(s, t)(x) == Div(Product(W(s, t), Plus(W(s, t), V(s, t)))(x), s.Dijkabc()(x));
    assert s.Dijkabc()(x) == s.eo(i) + s.eo(j) + s.eo(k) - s.ev(a) - s.ev(b) - s.ev(c);
  }

  lemma SummandAt(s: System, t: Amps, x: seq<int>)
    requires |x| == 6 && FullyAntisym(W(s, t)) && FullyAntisym(V(s, t))
    ensures Summand(s, t)(Exchange(x, 3, 4)) == Summand(s, t)(x) == Summand(s, t)(Exchange(x, 4, 5))
  {
    hide W, V, Summand;
    DenominatorsSymmetric(s);
    SummandSymmetric(s, t, x, 3, 4);
    SummandSymmetric(s, t, x, 4, 5);
  }

  lemma RepeatedVirtualVanishes(s: System, t: Amps, i: int, j: int, k: int, a: int, c: int)
    requires Antisym(6, W(s, t), 3, 4)
    ensures Summand(s, t)([i, j, k, a, a, c]) == 0.0
  {
    hide W, V;
    var x := [i, j, k, a, a, c];
    assert Exchange(x, 3, 4) == x;
    assert W(s, t)(Exchange(x, 3, 4)) == -W(s, t)(x);
    var w, v := W(s, t)(x), V(s, t)(x);
    assert w * (w + v) == 0.0;
    DivByProduct(0.0, 1.0, s.Dijkabc()(x));
  }

  /** Inside one block the contributions are symmetric in the virtual triple too. */
  lemma ContributionSymmetric(s: System, t: Amps, i: int, j: int, k: int, a: int, b: int, c: int)
    requires OccupiedPairs(s, t) && VirtualPairs(s, t)
    ensures SymmetricTriple(Contribution(s, t, i, j, k), a, b, c)
  {
    hide W, V, Summand, Antisym, Contribution;
    ConnectedTriplesAntisym(s, t);
    var x := [i, j, k, a, b, c];
    SummandAt(s, t, x);
    RepeatedVirtualVanishes(s, t, i, j, k, a, c);
    assert Exchange(x, 3, 4) == [i, j, k, b, a, c] && Exchange(x, 4, 5) == [i, j, k, a, c, b];
    ContributionIs(s, t, i, j, k, a, b, c);
    ContributionIs(s, t, i, j, k, b, a, c);
    ContributionIs(s, t, i, j, k, a, c, b);
    ContributionIs(s, t, i, j, k, a, a, c);
  }

  lemma BlockIsSixfold(s: System, t: Amps, i: int, j: int, k: int)
    requires OccupiedPairs(s, t) && VirtualPairs(s, t)
    ensures BlockSum(s.nv, Summand(s, t))(i, j, k) == 6.0 * OfTriple(s, t)(i, j, k)
  {
    hide Sum3, Summand, Contribution, OrderedTriples, OccupiedPairs, VirtualPairs;
    forall a, b, c
      ensures Elements(Summand(s, t), i, j, k)(a, b, c) == 1.0 * Contribution(s, t, i, j, k)(a, b, c)
      ensures SymmetricTriple(Contribution(s, t, i, j, k), a, b, c)
    {
      ContributionIs(s, t, i, j, k, a, b, c);
      ContributionSymmetric(s, t, i, j, k, a, b, c);
    }
    Sum3Scale(0, s.nv, 1.0, Elements(Summand(s, t), i, j, k), Contribution(s, t, i, j, k));
    SymmetricTriplesSixfold(0, s.nv, Contribution(s, t, i, j, k));
  }

  /** Proportional summands have proportional sums over ordered pairs and triples. */
  lemma {:induction false} PairsScale(lo: int, hi: int, c: real, f: (int, int) -> real, g: (int, int) -> real)
    requires forall i, j :: f(i, j) == c * g(i, j)
    ensures OrderedPairs(lo, hi, f) == c * OrderedPairs(lo, hi, g)
    decreases hi - lo
  {
    if lo < hi {
      SumScale(lo + 1, hi, c, At(f, lo), At(g, lo));
      PairsScale(lo + 1, hi, c, f, g);
    }
  }

  lemma {:induction false} TriplesScale(lo: int, hi: int, c: real, f: Triple, g: Triple)
    requires forall i, j, k :: f(i, j, k) == c * g(i, j, k)
    ensures OrderedTriples(lo, hi, f) == c * OrderedTriples(lo, hi, g)
    decreases hi - lo
  {
    if lo < hi {
      PairsScale(lo + 1, hi, c, Plane(f, lo), Plane(g, lo));
      TriplesScale(lo + 1, hi, c, f, g);
    }
  }

  /** For every size: the correction is the sum over i < j < k and a < b < c of w (w + v) over the energies. */
  lemma CorrectionOverTriples(s: System, t: Amps)
    requires OccupiedPairs(s, t) && VirtualPairs(s, t)
    ensures Naive(s, t) == OrderedTriples(0, s.no, OfTriple(s, t))
  {
    hide Sum6, OrderedTriples, Summand, OfTriple, BlockSum, OccupiedPairs, VirtualPairs;
    OrderedTriplesSuffice(s, t);
    forall i, j, k
      ensures BlockSum(s.nv, Summand(s, t))(i, j, k) == 6.0 * OfTriple(s, t)(i, j, k)
    {
      BlockIsSixfold(s, t, i, j, k);
    }
    TriplesScale(0, s.no, 6.0, BlockSum(s.nv, Summand(s, t)), OfTriple(s, t));
  }

  // ---- three by three -------------------------------------------------------------------------

  lemma OneTriple(f: Triple)
    ensures OrderedTriples(0, 3, f) == f(0, 1, 2)
  {
    assert OrderedPairs(3, 3, Plane(f, 0)) == 0.0 && OrderedPairs(2, 3, Plane(f, 0)) == 0.0;
    assert OrderedPairs(1, 3, Plane(f, 0)) == f(0, 1, 2);
    assert OrderedPairs(2, 3, Plane(f, 1)) == 0.0 && OrderedPairs(3, 3, Plane(f, 2)) == 0.0;
    assert OrderedTriples(3, 3, f) == 0.0 && OrderedTriples(2, 3, f) == 0.0 && OrderedTriples(1, 3, f) == 0.0;
  }

  /** With three occupied and three virtual orbitals one term is left. */
  lemma CorrectionInClosedForm(s: System, t: Amps)
    requires s.no == 3 == s.nv && OccupiedPairs(s, t) && VirtualPairs(s, t)
    requires s.eo(0) + s.eo(1) + s.eo(2) != s.ev(0) + s.ev(1) + s.ev(2)
    ensures var w, v := Nine(AllConnected(s, t), 0, 1, 2, 0, 1, 2), Nine(AllDisconnected(s, t), 0, 1, 2, 0, 1, 2);
            (s.eo(0) + s.eo(1) + s.eo(2) - s.ev(0) - s.ev(1) - s.ev(2)) * Naive(s, t) == w * (w + v)
  {
    hide Naive, Nine, OrderedTriples, OccupiedPairs, VirtualPairs, Share, AllConnected, AllDisconnected;
    CorrectionOverTriples(s, t);
    OneTriple(OfTriple(s, t));
    OneTriple(Contribution(s, t, 0, 1, 2));
    var w, v := Nine(AllConnected(s, t), 0, 1, 2, 0, 1, 2), Nine(AllDisconnected(s, t), 0, 1, 2, 0, 1, 2);
    ShareTimes(w, v, s.eo(0) + s.eo(1) + s.eo(2) - s.ev(0) - s.ev(1) - s.ev(2));
  }

  lemma ShareTimes(w: real, v: real, d: real)
    requires d != 0.0
    ensures d * Share(w, v, d) == w * (w + v)
  {
    hide Div;
    DivTimes(w * (w + v), d);
  }

  // ---- the sign -------------------------------------------------------------------------------

  lemma SummandNotPositive(s: System, t: Amps, i: int, j: int, k: int, a: int, b: int, c: int)
    requires Gapped(s) && NoSingles(t)
    requires 0 <= i < s.no && 0 <= j < s.no && 0 <= k < s.no && 0 <= a < s.nv && 0 <= b < s.nv && 0 <= c < s.nv
    ensures Summand(s, t)([i, j, k, a, b, c]) <= 0.0
  {
    hide W, V, Summand, Share;
    TriplesAre(s, t, i, j, k, a, b, c);
    SummandIsShare(s, t, i, j, k, a, b, c);
    NothingDisconnected(s, t, i, j, k, a, b, c);
    assert s.eo(i) < s.ev(a) && s.eo(j) < s.ev(b) && s.eo(k) < s.ev(c);
    SquareOver(W(s, t)([i, j, k, a, b, c]), s.eo(i) + s.eo(j) + s.eo(k) - s.ev(a) - s.ev(b) - s.ev(c));
  }

  lemma NothingDisconnected(s: System, t: Amps, i: int, j: int, k: int, a: int, b: int, c: int)
    requires NoSingles(t)
    ensures Nine(AllDisconnected(s, t), i, j, k, a, b, c) == 0.0
  {
    forall i, j, k, a, b, c
      ensures AllDisconnected(s, t)(i, j, k, a, b, c) == 0.0
    {
      assert t.t1([i, a]) == 0.0;
    }
  }

  lemma SquareOver(w: real, d: real)
    requires d < 0.0
    ensures Share(w, 0.0, d) <= 0.0
  {
    assert Share(w, 0.0, d) == w * w / d;
    assert w * w >= 0.0;
    NegativeQuotient(w * w, d);
  }

  lemma NegativeQuotient(a: real, d: real)
    requires a >= 0.0 && d < 0.0
    ensures a / d <= 0.0
  {
    var q := a / d;
    assert q * d == a;
  }

  /** With the gap and no singles the correction never raises the energy. */
  lemma CorrectionLowers(s: System, t: Amps)
    requires Gapped(s) && NoSingles(t)
    ensures Naive(s, t) <= 0.0
  {
    hide Sum3, Summand, Gapped, NoSingles;
    forall i, j, k | 0 <= i < s.no && 0 <= j < s.no && 0 <= k < s.no
      ensures BlockSum(s.nv, Summand(s, t))(i, j, k) <= 0.0
    {
      forall a, b, c | 0 <= a < s.nv && 0 <= b < s.nv && 0 <= c < s.nv
        ensures Elements(Summand(s, t), i, j, k)(a, b, c) <= 0.0
      {
        SummandNotPositive(s, t, i, j, k, a, b, c);
      }
      Sum3NotPositive(s.nv, Elements(Summand(s, t), i, j, k));
    }
    Sum3NotPositive(s.no, BlockSum(s.nv, Summand(s, t)));
  }
}
