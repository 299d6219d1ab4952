/** The toy program end to end: iterate the captured CCSD body, then evaluate the triples
    correction in its four spellings. */
module ToyScript {
  import opened Einsum
  import opened SpinOrbital
  import opened Ccsd
  import opened Triples
  import opened Congruence
  import opened Sums
  import CcsdDoubles
  import CcsdEnergy
  import CcsdEquations
  import TriplesEquations
  import CcsdGraph
  import TriplesGraph
  import TriplesBlocked

  lemma SameKeepsAntisymmetry(a: Val, b: Val)
    requires SameOn(4, a, b) && PairAntisym(b)
    ensures PairAntisym(a)
  {
    forall x: seq<int>, p: nat, q: nat | |x| == 4 && ((p == 0 && q == 1) || (p == 2 && q == 3))
      ensures a(Exchange(x, p, q)) == -a(x)
    {
      assert a(x) == b(x) && a(Exchange(x, p, q)) == b(Exchange(x, p, q)) == -b(x);
    }
  }

  /** Any number of replays from the MP2 start hold the oracle's iterate and its energy, and keep the doubles
      antisymmetric in both pairs. */
  method Iterate(body: CcsdGraph.Body, iterations: nat)
    requires Fermionic(body.s.g) && body.Now() == Start(body.s)
    modifies body
    ensures SameAmps(body.Now(), Plain(body.s, iterations)) && PairAntisym(body.t2)
    ensures iterations > 0 ==> body.ecorr == Energy(body.s, Plain(body.s, iterations))
    ensures iterations > 0 ==>
              body.ecorr == OrderedPairs(0, body.s.no, CcsdEnergy.OfPair(body.s, Plain(body.s, iterations)))
  {
    hide PairAntisym, Fermionic, Step, Energy, Plain, SameOn, Start, OrderedPairs;
    PlainAntisym(body.s, iterations);
    CcsdEnergy.EnergyOverPairs(body.s, Plain(body.s, iterations));
    PlainNext(body.s, 0);
    StartAntisym(body.s);
    ItselfSame(body.Now());
    for n := 0 to iterations
      invariant SameAmps(body.Now(), Plain(body.s, n)) && PairAntisym(body.t2)
      invariant n > 0 ==> body.ecorr == Energy(body.s, Plain(body.s, n))
    {
      ghost var before := body.Now();
      body.Replay();
      StepKeepsAntisymmetry(body.s, before);
      SameKeepsAntisymmetry(body.t2, Step(body.s, before).t2);
      PlainNext(body.s, n);
      StepSame(body.s, before, Plain(body.s, n));
      SameChain(body.Now(), Step(body.s, before), Plain(body.s, n + 1));
      EnergySame(body.s, body.Now(), Plain(body.s, n + 1));
    }
  }

  /** What the iterates are, with no label string and no intermediate in between: the MP2 start, each next one the
      right-hand sides of the written-out equations at the one before over the energies, all of them antisymmetric. */
  lemma IteratesSolve(s: System, n: nat, i: int, j: int, a: int, b: int)
    requires Fermionic(s.g)
    requires s.eo(i) != s.ev(a) && s.eo(i) + s.eo(j) != s.ev(a) + s.ev(b)
    ensures PairAntisym(Plain(s, n).t2)
    ensures Plain(s, 0).t1([i, a]) == 0.0
    ensures (s.eo(i) + s.eo(j) - s.ev(a) - s.ev(b)) * Plain(s, 0).t2([i, j, a, b]) == s.g([i, j, s.no + a, s.no + b])
    ensures (s.eo(i) - s.ev(a)) * Plain(s, n + 1).t1([i, a]) == CcsdEquations.SinglesEquation(s, Plain(s, n), i, a)
    ensures (s.eo(i) + s.eo(j) - s.ev(a) - s.ev(b)) * Plain(s, n + 1).t2([i, j, a, b])
         == CcsdEquations.DoublesEquation(s, Plain(s, n), i, j, a, b)
  {
    hide PairAntisym, Fermionic, Step, Start, Plain, CcsdEquations.SinglesEquation, CcsdEquations.DoublesEquation;
    PlainNext(s, n);
    PlainAntisym(s, n);
    CcsdDoubles.StartSolves(s, i, j, a, b);
    CcsdDoubles.IterationSolves(s, Plain(s, n), i, j, a, b);
  }

  lemma {:induction false} PlainAntisym(s: System, n: nat)
    requires Fermionic(s.g)
    ensures PairAntisym(Plain(s, n).t2)
  {
    hide PairAntisym, Fermionic, Step, Start, Plain;
    PlainNext(s, 0);
    if n == 0 {
      StartAntisym(s);
    } else {
      PlainNext(s, n - 1);
      PlainAntisym(s, n - 1);
      StepKeepsAntisymmetry(s, Plain(s, n - 1));
    }
  }

  lemma ItselfSame(t: Amps)
    ensures SameAmps(t, t)
  {
  }

  lemma SameChain(t: Amps, u: Amps, v: Amps)
    requires SameAmps(t, u) && SameAmps(u, v)
    ensures SameAmps(t, v)
  {
  }

  /** From any raw integrals and orbital energies, after any number of iterations, all four spellings of the
      correction are the oracle's correction of the oracle's amplitudes. */
  method CorrectEnergies(nspatial: nat, nocc: nat, raw: Val, eps: int -> real, iterations: nat)
    returns (whole: real, wholeFolded: real, blocked: real, blockedFolded: real)
    requires nocc <= nspatial
    ensures whole == Naive(Toy(nspatial, nocc, raw, eps), Plain(Toy(nspatial, nocc, raw, eps), iterations))
    ensures whole == wholeFolded == blocked == blockedFolded
    ensures var s := Toy(nspatial, nocc, raw, eps);
            whole == OrderedTriples(0, s.no, TriplesEquations.OfTriple(s, Plain(s, iterations)))
  {
    hide PairAntisym, Fermionic, OccupiedPairs, VirtualPairs, Naive, Folded, Toy, Plain, SameAmps, OrderedTriples;
    var s := Toy(nspatial, nocc, raw, eps);
    ToyIsFermionic(nspatial, nocc, raw, eps);
    var body := new CcsdGraph.Body(s);
    Iterate(body, iterations);
    var t := body.Now();
    NaiveSame(s, t, Plain(s, iterations));
    PlainAntisym(s, iterations);
    FermionicPairs(s, Plain(s, iterations));
    TriplesEquations.CorrectionOverTriples(s, Plain(s, iterations));
    FermionicPairs(s, t);
    FoldIsExact(s, t);
    var w := new TriplesGraph.WholeTensor(s, t);
    w.Replay(false);
    whole := w.et;
    w.Replay(true);
    wholeFolded := w.et;
    var b := new TriplesBlocked.Blocked(s, t);
    b.Replay(false);
    blocked := b.e;
    b.Replay(true);
    blockedFolded := b.e;
  }

  lemma ToyIsFermionic(nspatial: nat, nocc: nat, raw: Val, eps: int -> real)
    requires nocc <= nspatial
    ensures Fermionic(Toy(nspatial, nocc, raw, eps).g)
  {
    hide Fermionic;
    ToyIntegralsAreFermionic(raw);
  }
}
