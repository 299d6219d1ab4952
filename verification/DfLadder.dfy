/** The density-fitted particle ladder: pair by pair into slices of the residual, as a
    whole-tensor two-step form, and as a contraction with the v^4 tensor it never forms. */
module DfLadder {
  import opened Einsum
  import opened Contractions
  import opened Sums
  import opened BoxSums
  import opened EinsumSums

  /** Overwrites the block of a rank-4 tensor at fixed leading indices. */
  function WithBlock(a: Val, i: int, j: int, block: Val): Val {
    x => if |x| == 4 && x[0] == i && x[1] == j then block(x[2..]) else a(x)
  }

  /** <ab|ef> reconstructed from the fitted three-index tensor: sum_Q B_ae B_bf. */
  function Reconstructed(n: Extents, bvv: Val): Val { Ein(n, "abef", "Q", [Op("Qae", bvv), Op("Qbf", bvv)]) }

  /** sum_ef tau_ijef <ab|ef> */
  function Direct(n: Extents, bvv: Val, tau: Val): Val {
    Ein(n, "ijab", "ef", [Op("ijef", tau), Op("abef", Reconstructed(n, bvv))])
  }

  /** The three-operand contraction that every form computes. */
  function Triple(n: Extents, bvv: Val, tau: Val): Val {
    Ein(n, "ijab", "Qfe", [Op("Qae", bvv), Op("ijef", tau), Op("Qbf", bvv)])
  }

  lemma DirectIsTriple(n: Extents, bvv: Val, tau: Val, x: seq<int>)
    ensures Direct(n, bvv, tau)(x) == Triple(n, bvv, tau)(x)
  {
    hide Over, Term, Bind;
    var env, v := Bind("ijab", x), Reconstructed(n, bvv);
    var fitted, rest := [Op("Qae", bvv), Op("Qbf", bvv)], [Op("ijef", tau)];
    OperandsCommute(n, "ijab", "ef", Op("ijef", tau), Op("abef", v), x);
    assert [Op("abef", v)] + rest == [Op("abef", v), Op("ijef", tau)];
    StoredIntermediate(n, "ef", "abef", "Q", v, fitted, rest, env);
    assert "ef" + "Q" == "efQ" && fitted + rest == [Op("Qae", bvv), Op("Qbf", bvv), Op("ijef", tau)];
    Reordered(n, env, fitted + rest);
    LastTwoCommute(n, "Qfe", env, Op("Qae", bvv), Op("Qbf", bvv), Op("ijef", tau));
  }

  lemma Reordered(n: Extents, env: Env, ops: seq<Operand>)
    ensures Over(n, "efQ", env, ops) == Over(n, "Qfe", env, ops)
  {
    hide Over;
    OrderOfLabels(n, "efQ", "Qfe", env, ops);
  }

  lemma LastTwoCommute(n: Extents, summed: string, env: Env, a: Operand, b: Operand, c: Operand)
    ensures Over(n, summed, env, [a, b, c]) == Over(n, summed, env, [a, c, b])
  {
    hide Over, Term;
    forall e
      ensures Term(e, [a, b, c]) == Term(e, [a, c, b])
    {
      Term3(e, a, b, c);
      Term3(e, a, c, b);
    }
    OverDependsOnTerms(n, summed, env, [a, b, c], [a, c, b]);
  }

  lemma WholeIsTriple(n: Extents, bvv: Val, tau: Val, h: Val, x: seq<int>)
    requires forall y | |y| == 5 :: h(y) == Ein(n, "Qaijf", "e", [Op("Qae", bvv), Op("ijef", tau)])(y)
    ensures Ein(n, "ijab", "Qf", [Op("Qaijf", h), Op("Qbf", bvv)])(x) == Triple(n, bvv, tau)(x)
  {
    hide Over, Term, Bind;
    var first, rest := [Op("Qae", bvv), Op("ijef", tau)], [Op("Qbf", bvv)];
    assert [Op("Qaijf", h)] + rest == [Op("Qaijf", h), Op("Qbf", bvv)];
    assert "Qf" + "e" == "Qfe" && first + rest == [Op("Qae", bvv), Op("ijef", tau), Op("Qbf", bvv)];
    StoredIntermediate(n, "Qf", "Qaijf", "e", h, first, rest, Bind("ijab", x));
  }

  /** One pair's two steps through the small buffer give that pair's block of the contraction. */
  lemma PairIsTriple(n: Extents, bvv: Val, tau: Val, i: int, j: int, h: Val, y: seq<int>)
    requires |y| == 2
    requires forall z | |z| == 3 :: h(z) == Ein(n, "Qaf", "e", [Op("Qae", bvv), Op("ef", View(tau, 0, [i, j]))])(z)
    ensures Ein(n, "ab", "Qf", [Op("Qaf", h), Op("Qbf", bvv)])(y) == Triple(n, bvv, tau)([i, j] + y)
  {
    hide Over, Term, Bind, View;
    var first, rest := [Op("Qae", bvv), Op("ef", View(tau, 0, [i, j]))], [Op("Qbf", bvv)];
    assert [Op("Qaf", h)] + rest == [Op("Qaf", h), Op("Qbf", bvv)];
    assert "Qf" + "e" == "Qfe" && first + rest == [Op("Qae", bvv), Op("ef", View(tau, 0, [i, j])), Op("Qbf", bvv)];
    StoredIntermediate(n, "Qf", "Qaf", "e", h, first, rest, Bind("ab", y));
    PairViews(n, bvv, tau, i, j, y);
  }

  lemma PairViews(n: Extents, bvv: Val, tau: Val, i: int, j: int, y: seq<int>)
    requires |y| == 2
    ensures Over(n, "Qfe", Bind("ab", y), [Op("Qae", bvv), Op("ef", View(tau, 0, [i, j])), Op("Qbf", bvv)])
         == Triple(n, bvv, tau)([i, j] + y)
  {
    hide Over, Term, Bind, View, Look;
    var fixed := map['i' := i, 'j' := j];
    var views := [Op("Qae", bvv), Op("ef", View(tau, 0, [i, j])), Op("Qbf", bvv)];
    var ops := [Op("Qae", bvv), Op("ijef", tau), Op("Qbf", bvv)];
    forall e
      ensures Term(e, views) == Term(e + fixed, ops)
    {
      PairTerm(bvv, tau, i, j, e);
    }
    OverViews(n, "Qfe", Bind("ab", y), fixed, views, ops);
    assert "ij" + "ab" == "ijab";
    BindFixed("ij", [i, j], "ab", y, fixed);
    OverAgrees(n, "Qfe", Bind("ab", y) + fixed, Bind("ijab", [i, j] + y), ops);
  }

  lemma PairTerm(bvv: Val, tau: Val, i: int, j: int, e: Env)
    ensures Term(e, [Op("Qae", bvv), Op("ef", View(tau, 0, [i, j])), Op("Qbf", bvv)])
         == Term(e + map['i' := i, 'j' := j], [Op("Qae", bvv), Op("ijef", tau), Op("Qbf", bvv)])
  {
    hide Term, View, Look;
    var fixed := map['i' := i, 'j' := j];
    Term3(e, Op("Qae", bvv), Op("ef", View(tau, 0, [i, j])), Op("Qbf", bvv));
    Term3(e + fixed, Op("Qae", bvv), Op("ijef", tau), Op("Qbf", bvv));
    ViewReads(tau, "ef", "ijef", 0, [i, j], "ij", e, fixed);
    Unaffected(e, fixed);
  }

  lemma Unaffected(e: Env, fixed: Env)
    requires 'Q' !in fixed && 'a' !in fixed && 'b' !in fixed && 'e' !in fixed && 'f' !in fixed
    ensures Look(e + fixed, "Qae") == Look(e, "Qae") && Look(e + fixed, "Qbf") == Look(e, "Qbf")
  {
  }

  class Ladder {
    const n: Extents
    const bvv: Val
    const tau: Val
    const nocc: nat
    var r2: Val
    var hpair: Val
    var hdf: Val

    constructor (n: Extents, bvv: Val, tau: Val, nocc: nat, r2: Val, scratch: Val)
      ensures this.n == n && this.bvv == bvv && this.tau == tau && this.nocc == nocc && this.r2 == r2
    {
      this.n, this.bvv, this.tau, this.nocc, this.r2, hpair, hdf := n, bvv, tau, nocc, r2, scratch, scratch;
    }

    /** Pair by pair: one (Q, a, f) buffer reused by all pairs, each accumulated into the view r2[i, j].
        Adds the ladder to every block of an occupied pair and touches nothing else. */
    method PairDriven()
      modifies this`r2, this`hpair
      ensures forall i, j, y {:trigger r2([i, j] + y)} | |y| == 2 ::
                r2([i, j] + y) == old(r2)([i, j] + y)
                                + if 0 <= i < nocc && 0 <= j < nocc then Direct(n, bvv, tau)([i, j] + y) else 0.0
    {
      hide Direct, Ein, View;
      for i := 0 to nocc
        invariant forall p, q, y {:trigger r2([p, q] + y)} | |y| == 2 ::
                    r2([p, q] + y) == old(r2)([p, q] + y)
                                    + if 0 <= p < i && 0 <= q < nocc then Direct(n, bvv, tau)([p, q] + y) else 0.0
      {
        for j := 0 to nocc
          invariant forall p, q, y {:trigger r2([p, q] + y)} | |y| == 2 ::
                      r2([p, q] + y) == old(r2)([p, q] + y)
                                      + if (0 <= p < i && 0 <= q < nocc) || (p == i && 0 <= q < j)
                                        then Direct(n, bvv, tau)([p, q] + y) else 0.0
        {
          Pair(i, j);
        }
      }
    }

    method Pair(i: int, j: int)
      modifies this`r2, this`hpair
      ensures forall p, q, y {:trigger r2([p, q] + y)} | |y| == 2 ::
                r2([p, q] + y) == old(r2)([p, q] + y)
                  + if p == i && q == j then Direct(n, bvv, tau)([p, q] + y) else 0.0
    {
      hide Direct, Ein;
      hpair := EinInto(n, "Qaf", "e", [Op("Qae", bvv), Op("ef", View(tau, 0, [i, j]))], 1.0, 0.0, hpair);
      r2 := WithBlock(r2, i, j, EinInto(n, "ab", "Qf", [Op("Qaf", hpair), Op("Qbf", bvv)], 1.0, 1.0,
                                        View(r2, 0, [i, j])));
      forall p, q, y: seq<int> | |y| == 2
        ensures r2([p, q] + y) == old(r2)([p, q] + y)
          + if p == i && q == j then Direct(n, bvv, tau)([p, q] + y) else 0.0
      {
        assert ([p, q] + y)[2..] == y && y[..0] + [i, j] + y[0..] == [i, j] + y;
        if p == i && q == j {
          PairIsTriple(n, bvv, tau, i, j, hpair, y);
          DirectIsTriple(n, bvv, tau, [i, j] + y);
        }
      }
    }

    /** The whole-tensor form: one (Q, a, i, j, f) intermediate for all pairs at once. */
    method Whole()
      modifies this`r2, this`hdf
      ensures forall x | |x| == 4 :: r2(x) == old(r2)(x) + Direct(n, bvv, tau)(x)
    {
      hide Direct, Ein;
      hdf := EinInto(n, "Qaijf", "e", [Op("Qae", bvv), Op("ijef", tau)], 1.0, 0.0, hdf);
      r2 := EinInto(n, "ijab", "Qf", [Op("Qaijf", hdf), Op("Qbf", bvv)], 1.0, 1.0, r2);
      forall x: seq<int> | |x| == 4
        ensures r2(x) == old(r2)(x) + Direct(n, bvv, tau)(x)
      {
        WholeIsTriple(n, bvv, tau, hdf, x);
        DirectIsTriple(n, bvv, tau, x);
      }
    }
  }

  // ---- the ladder written out -----------------------------------------------------------------

  /** B[Qae] B[Qbf] */
  function Factors(bvv: Val, a: int, b: int, e: int, f: int): int -> real { q => bvv([q, a, e]) * bvv([q, b, f]) }

  /** t[ijef] times the sum over Q */
  function LadderTerm(n: Extents, bvv: Val, tau: Val, i: int, j: int, a: int, b: int): (int, int) -> real {
    (e, f) => tau([i, j, e, f]) * Sum(0, n('Q'), Factors(bvv, a, b, e, f))
  }

  lemma ReconstructedIs(n: Extents, bvv: Val, a: int, b: int, e: int, f: int)
    ensures Reconstructed(n, bvv)([a, b, e, f]) == Sum(0, n('Q'), Factors(bvv, a, b, e, f))
  {
    hide Sum, Look, Get;
    var u, w := Op("Qae", bvv), Op("Qbf", bvv);
    forall env, q | Bound(env, "abef" + "Q", [a, b, e, f] + [q])
      ensures Factors(bvv, a, b, e, f)(q) == Both(env, u, w)
    {
      Reads(env, "abef" + "Q", [a, b, e, f] + [q]);
      Look3(env, "Qae", q, a, e);
      Look3(env, "Qbf", q, b, f);
    }
    OneSummed(n, "abef", "Q", [a, b, e, f], u, w, Factors(bvv, a, b, e, f));
  }

  /** What every form adds to r2[ijab]: the sum over e and f of t[ijef] times the sum over Q of B[Qae] B[Qbf]. */
  lemma LadderIs(n: Extents, bvv: Val, tau: Val, i: int, j: int, a: int, b: int)
    ensures Direct(n, bvv, tau)([i, j, a, b]) == Box2(n('e'), n('f'), LadderTerm(n, bvv, tau, i, j, a, b))
  {
    hide Box2, Sum, Look, Get, Reconstructed;
    var u, w := Op("ijef", tau), Op("abef", Reconstructed(n, bvv));
    forall env, e, f | Bound(env, "ijab" + "ef", [i, j, a, b] + [e, f])
      ensures LadderTerm(n, bvv, tau, i, j, a, b)(e, f) == Both(env, u, w)
    {
      Reads(env, "ijab" + "ef", [i, j, a, b] + [e, f]);
      Look4(env, "ijef", i, j, e, f);
      Look4(env, "abef", a, b, e, f);
      ReconstructedIs(n, bvv, a, b, e, f);
    }
    TwoSummed(n, "ijab", "ef", [i, j, a, b], u, w, LadderTerm(n, bvv, tau, i, j, a, b));
  }
}
