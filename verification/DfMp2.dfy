/** Pair-driven DF-MP2.  The captured form hands out a bounded pool of scratch slots chunk by
    chunk; it is proved equal to the per-pair form over arithmetic of which nothing at all is
    assumed, so the two agree bit for bit.  Over the reals both are the sum over all pairs. */
module DfMp2 {
  import opened Sums
  import opened Einsum
  import opened Contractions
  import opened EinsumSums

  // ---- uninterpreted arithmetic -------------------------------------------------------------

  /** The kernels on matrices M and scalars S.  A destination coefficient of zero overwrites
      (`scale`), one accumulates (`add` and `accumulate`); no law relates any of them. */
  datatype Kernels<!M, !S> = Kernels(
    gemm: (M, M) -> M,
    transpose: M -> M,
    scale: (S, M) -> M,
    add: (S, M, M) -> M,
    reciprocal: M -> M,
    product: (M, M) -> M,
    dot: (M, M) -> S,
    accumulate: (S, S, S) -> S)

  /** What the captured operations read: slabs, -e_a - e_b, all ones, the scalars e_i + e_j, and constants. */
  datatype Data<!M, !S> = Data(
    slab: int -> M, dbase: M, ones: M, eij: (int, int) -> S, one: S, two: S, minusOne: S)

  type Pair = (int, int)

  /** The energy of one pair, operation by operation. */
  function PairEnergy<M, S>(k: Kernels<M, S>, d: Data<M, S>, p: Pair): S {
    var i := k.gemm(d.slab(p.0), d.slab(p.1));
    var kab := k.add(d.minusOne, k.transpose(i), k.scale(d.two, i));
    var w := k.reciprocal(k.add(d.eij(p.0, p.1), d.ones, k.scale(d.one, d.dbase)));
    k.dot(kab, k.product(i, w))
  }

  function Weight<M, S>(d: Data<M, S>, p: Pair): S { if p.0 == p.1 then d.one else d.two }

  /** The left fold over the pairs: the order of the scalar additions is part of its meaning. */
  function Fold<M, S>(k: Kernels<M, S>, d: Data<M, S>, pairs: seq<Pair>, e: S): S
    decreases |pairs|
  {
    if |pairs| == 0 then e
    else Fold(k, d, pairs[1..], k.accumulate(Weight(d, pairs[0]), PairEnergy(k, d, pairs[0]), e))
  }

  lemma {:induction false} FoldLast<M, S>(k: Kernels<M, S>, d: Data<M, S>, pairs: seq<Pair>, p: Pair, e: S)
    ensures Fold(k, d, pairs + [p], e) == k.accumulate(Weight(d, p), PairEnergy(k, d, p), Fold(k, d, pairs, e))
    decreases |pairs|
  {
    if |pairs| == 0 {
      assert ([] + [p])[1..] == [];
      assert Fold(k, d, [p], e) == Fold(k, d, [p][1..], k.accumulate(Weight(d, p), PairEnergy(k, d, p), e));
    } else {
      assert (pairs + [p])[1..] == pairs[1..] + [p];
      FoldLast(k, d, pairs[1..], p, k.accumulate(Weight(d, pairs[0]), PairEnergy(k, d, pairs[0]), e));
    }
  }

  class Pooled<M(0), S(0)> {
    const k: Kernels<M, S>
    const d: Data<M, S>
    const pairs: seq<Pair>
    const depth: nat
    const iab: array<M>
    const iba: array<M>
    const kab: array<M>
    const wab: array<M>
    const tab: array<M>
    const ePair: array<S>
    var e: S

    ghost predicate Valid()
      reads this
    {
      && iab.Length == iba.Length == kab.Length == wab.Length == tab.Length == ePair.Length == depth
      && iab != iba && iab != kab && iab != wab && iab != tab && iba != kab && iba != wab && iba != tab
      && kab != wab && kab != tab && wab != tab
      && (ePair as object) !in {iab as object, iba, kab, wab, tab}
    }

    /** Pools of depth min(cores capped at 16, number of pairs), with arbitrary contents. */
    constructor (k: Kernels<M, S>, d: Data<M, S>, pairs: seq<Pair>, pool: nat, zero: S)
      ensures Valid() && this.k == k && this.d == d && this.pairs == pairs && e == zero
      ensures depth == if pool < |pairs| then pool else |pairs|
      ensures fresh(iab) && fresh(iba) && fresh(kab) && fresh(wab) && fresh(tab) && fresh(ePair)
    {
      var n := if pool < |pairs| then pool else |pairs|;
      this.k, this.d, this.pairs, depth, e := k, d, pairs, n, zero;
      iab, iba, kab, wab, tab := new M[n], new M[n], new M[n], new M[n], new M[n];
      ePair := new S[n];
    }

    /** The grouped form, chunk by chunk.  A depth of zero makes the chunk step zero, which the source's
        range rejects; otherwise the energy is the left fold over the pairs, whatever the pools held. */
    method Grouped() returns (ok: bool)
      requires Valid()
      modifies this`e, iab, iba, kab, wab, tab, ePair
      ensures ok <==> depth > 0
      ensures e == if ok then Fold(k, d, pairs, old(e)) else old(e)
    {
      ok := depth > 0;
      if ok {
        var base := 0;
        assert pairs[..0] == [];
        while base < |pairs|
          invariant base <= |pairs|
          invariant e == Fold(k, d, pairs[..base], old(e))
          decreases |pairs| - base
        {
          var m := if depth < |pairs| - base then depth else |pairs| - base;
          Chunk(base, m);
          AccumulateChunk(base, m, old(e));
          base := base + m;
        }
        assert pairs[..base] == pairs;
      }
    }

    /** The denominator matrix of one pair before it is inverted. */
    function Gap(p: Pair): M { k.add(d.eij(p.0, p.1), d.ones, k.scale(d.one, d.dbase)) }

    /** Every family of one chunk: afterwards slot s holds the energy of pair base + s. */
    method Chunk(base: nat, m: nat)
      requires Valid() && m <= depth && base + m <= |pairs|
      modifies iab, iba, kab, wab, tab, ePair
      ensures forall s | 0 <= s < m :: ePair[s] == PairEnergy(k, d, pairs[base + s])
    {
      Integrals(base, m);
      Numerators(m);
      Gaps(base, m);
      Amplitudes(base, m);
      forall s | 0 <= s < m { ePair[s] := k.dot(kab[s], tab[s]); }
    }

    method Integrals(base: nat, m: nat)
      requires Valid() && m <= depth && base + m <= |pairs|
      modifies iab, iba
      ensures forall s | 0 <= s < m :: iab[s] == k.gemm(d.slab(pairs[base + s].0), d.slab(pairs[base + s].1))
      ensures forall s | 0 <= s < m :: iba[s] == k.transpose(iab[s])
    {
      forall s | 0 <= s < m { iab[s] := k.gemm(d.slab(pairs[base + s].0), d.slab(pairs[base + s].1)); }
      for s := 0 to m
        modifies iba
        invariant forall r | 0 <= r < s :: iba[r] == k.transpose(iab[r])
      {
        iba[s] := k.transpose(iab[s]);
      }
    }

    method Numerators(m: nat)
      requires Valid() && m <= depth
      modifies kab
      ensures forall s | 0 <= s < m :: kab[s] == k.add(d.minusOne, iba[s], k.scale(d.two, iab[s]))
    {
      forall s | 0 <= s < m { kab[s] := k.scale(d.two, iab[s]); }
      forall s | 0 <= s < m { kab[s] := k.add(d.minusOne, iba[s], kab[s]); }
    }

    method Gaps(base: nat, m: nat)
      requires Valid() && m <= depth && base + m <= |pairs|
      modifies wab
      ensures forall s | 0 <= s < m :: wab[s] == Gap(pairs[base + s])
    {
      forall s | 0 <= s < m { wab[s] := k.scale(d.one, d.dbase); }
      forall s | 0 <= s < m { wab[s] := k.add(d.eij(pairs[base + s].0, pairs[base + s].1), d.ones, wab[s]); }
    }

    method Amplitudes(base: nat, m: nat)
      requires Valid() && m <= depth && base + m <= |pairs|
      requires forall s | 0 <= s < m :: wab[s] == Gap(pairs[base + s])
      modifies wab, tab
      ensures forall s | 0 <= s < m :: tab[s] == k.product(iab[s], k.reciprocal(Gap(pairs[base + s])))
    {
      for s := 0 to m
        invariant forall r | s <= r < m :: wab[r] == Gap(pairs[base + r])
        invariant forall r | 0 <= r < s :: tab[r] == k.product(iab[r], k.reciprocal(Gap(pairs[base + r])))
      {
        wab[s] := k.reciprocal(wab[s]);
        tab[s] := k.product(iab[s], wab[s]);
      }
    }

    /** The one ordered family: entries run sequentially and each reads the energy it updates. */
    method AccumulateChunk(base: nat, m: nat, ghost e0: S)
      requires Valid() && m <= depth && base + m <= |pairs|
      requires forall s | 0 <= s < m :: ePair[s] == PairEnergy(k, d, pairs[base + s])
      requires e == Fold(k, d, pairs[..base], e0)
      modifies this`e
      ensures e == Fold(k, d, pairs[..base + m], e0)
    {
      for s := 0 to m
        invariant e == Fold(k, d, pairs[..base + s], e0)
      {
        assert pairs[..base + s + 1] == pairs[..base + s] + [pairs[base + s]];
        FoldLast(k, d, pairs[..base + s], pairs[base + s], e0);
        e := k.accumulate(Weight(d, pairs[base + s]), ePair[s], e);
      }
    }

    /** The ungrouped form: one node per operation per pair, all through slot 0. */
    method PerPair()
      requires Valid() && (|pairs| > 0 ==> depth > 0)
      modifies this`e, iab, iba, kab, wab, tab, ePair
      ensures e == Fold(k, d, pairs, old(e))
    {
      assert pairs[..0] == [];
      for n := 0 to |pairs|
        invariant e == Fold(k, d, pairs[..n], old(e))
      {
        var (i, j) := pairs[n];
        iab[0] := k.gemm(d.slab(i), d.slab(j));
        iba[0] := k.transpose(iab[0]);
        kab[0] := k.scale(d.two, iab[0]);
        kab[0] := k.add(d.minusOne, iba[0], kab[0]);
        wab[0] := k.scale(d.one, d.dbase);
        wab[0] := k.add(d.eij(i, j), d.ones, wab[0]);
        wab[0] := k.reciprocal(wab[0]);
        tab[0] := k.product(iab[0], wab[0]);
        ePair[0] := k.dot(kab[0], tab[0]);
        assert pairs[..n + 1] == pairs[..n] + [pairs[n]];
        FoldLast(k, d, pairs[..n], pairs[n], old(e));
        e := k.accumulate(if i == j then d.one else d.two, ePair[0], e);
      }
      assert pairs[..|pairs|] == pairs;
    }
  }

  /** Chunked through any pool or pair by pair: the same energy, to the last bit. */
  method BothForms<M(0), S(0)>(k: Kernels<M, S>, d: Data<M, S>, pairs: seq<Pair>, pool: nat, zero: S)
    returns (ok: bool, grouped: S, perPair: S)
    requires pool > 0
    ensures ok <==> pairs != []
    ensures ok ==> grouped == perPair
    ensures perPair == Fold(k, d, pairs, zero)
  {
    var g := new Pooled(k, d, pairs, pool, zero);
    ok := g.Grouped();
    var p := new Pooled(k, d, pairs, pool, zero);
    p.PerPair();
    grouped, perPair := g.e, p.e;
  }

  // ---- over the reals: the i <= j loop is the sum over all pairs ----------------------------------

  /** `b` is the fitted tensor (Q, i, a); labels a, b have the virtual and Q the auxiliary extent. */
  datatype System = System(n: Extents, nocc: nat, b: Val, eo: int -> real, ev: int -> real) {

    /** (ia|jb) for one occupied pair. */
    function Integrals(i: int, j: int): Val {
      Ein(n, "ab", "Q", [Op("Qa", View(b, 1, [i])), Op("Qb", View(b, 1, [j]))])
    }

    function Dbase(): Val { x => if |x| == 2 then -ev(x[0]) - ev(x[1]) else 0.0 }

    /** (2 (ia|jb) - (ib|ja)) (ia|jb) / (e_i + e_j - e_a - e_b) */
    function Element(i: int, j: int): (int, int) -> real {
      (a, c) => (2.0 * Integrals(i, j)([a, c]) - Integrals(i, j)([c, a]))
                * (Integrals(i, j)([a, c]) * Div(1.0, eo(i) + eo(j) - ev(a) - ev(c)))
    }

    function Energies(): (int, int) -> real { (i, j) => Sum2(0, n('a'), 0, n('a'), Element(i, j)) }
  }

  // ---- the energy written out ---------------------------------------------------------------------

  function Fitted(s: System, i: int, a: int, j: int, c: int): int -> real { q => s.b([q, i, a]) * s.b([q, j, c]) }

  /** (ia|jc) = sum over Q of b[Qia] b[Qjc] */
  function Repulsion(s: System, i: int, a: int, j: int, c: int): real { Sum(0, s.n('Q'), Fitted(s, i, a, j, c)) }

  /** x (2 x - y) / d */
  function Share(x: real, y: real, d: real): real { Div(x * (2.0 * x - y), d) }

  /** (ia|jc) (2 (ia|jc) - (ic|ja)) / (e_i + e_j - e_a - e_c) */
  function PairTerm(s: System, i: int, j: int): (int, int) -> real {
    (a, c) => Share(Repulsion(s, i, a, j, c), Repulsion(s, i, c, j, a), s.eo(i) + s.eo(j) - s.ev(a) - s.ev(c))
  }

  function PairSums(s: System): (int, int) -> real { (i, j) => Sum2(0, s.n('a'), 0, s.n('a'), PairTerm(s, i, j)) }

  /** The MP2 correlation energy: the sum over all occupied i, j and all virtual a, c. */
  function Mp2(s: System): real { Sum2(0, s.nocc, 0, s.nocc, PairSums(s)) }

  /** The integrals of a pair contract the slabs of its two occupied orbitals. */
  lemma IntegralsAre(s: System, i: int, j: int, a: int, c: int)
    ensures s.Integrals(i, j)([a, c]) == Repulsion(s, i, a, j, c)
  {
    hide Sum, Look, Get, View;
    var u, w := Op("Qa", View(s.b, 1, [i])), Op("Qb", View(s.b, 1, [j]));
    forall env, q | Bound(env, "ab" + "Q", [a, c] + [q])
      ensures Fitted(s, i, a, j, c)(q) == Both(env, u, w)
    {
      Reads(env, "ab" + "Q", [a, c] + [q]);
      Look2(env, "Qa", q, a);
      Look2(env, "Qb", q, c);
      SlabAt(s.b, i, q, a);
      SlabAt(s.b, j, q, c);
    }
    OneSummed(s.n, "ab", "Q", [a, c], u, w, Fitted(s, i, a, j, c));
  }

  /** b[:, i, :] */
  lemma SlabAt(b: Val, i: int, q: int, a: int)
    ensures View(b, 1, [i])([q, a]) == b([q, i, a])
  {
    assert [q, a][..1] + [i] + [q, a][1..] == [q, i, a];
  }

  lemma ElementIs(s: System, i: int, j: int, a: int, c: int)
    ensures s.Element(i, j)(a, c) == PairTerm(s, i, j)(a, c)
  {
    hide Repulsion, s.Integrals, Div, Share;
    IntegralsAre(s, i, j, a, c);
    IntegralsAre(s, i, j, c, a);
    var x, y, d := Repulsion(s, i, a, j, c), Repulsion(s, i, c, j, a), s.eo(i) + s.eo(j) - s.ev(a) - s.ev(c);
    ElementProductIs(s, i, j, a, c, x, y);
    DivideLast(x, y, d);
  }

  lemma ElementProductIs(s: System, i: int, j: int, a: int, c: int, x: real, y: real)
    requires s.Integrals(i, j)([a, c]) == x && s.Integrals(i, j)([c, a]) == y
    ensures s.Element(i, j)(a, c) == (2.0 * x - y) * (x * Div(1.0, s.eo(i) + s.eo(j) - s.ev(a) - s.ev(c)))
  {
    hide s.Integrals, Div;
  }

  lemma DivideLast(x: real, y: real, d: real)
    ensures (2.0 * x - y) * (x * Div(1.0, d)) == Share(x, y, d)
  {
    DivOne(x * (2.0 * x - y), d);
    Regroup(x, 2.0 * x - y, Div(1.0, d));
  }

  lemma Regroup(x: real, z: real, r: real)
    ensures z * (x * r) == (x * z) * r
  {
  }

  lemma DivOne(n: real, d: real)
    ensures n * Div(1.0, d) == Div(n, d)
  {
  }

  lemma PairSumIs(s: System, i: int, j: int)
    ensures s.Energies()(i, j) == PairSums(s)(i, j)
  {
    hide Sum2, PairTerm;
    forall a, c
      ensures s.Element(i, j)(a, c) == 1.0 * PairTerm(s, i, j)(a, c)
    {
      ElementIs(s, i, j, a, c);
    }
    Sum2Scale(0, s.n('a'), 0, s.n('a'), 1.0, s.Element(i, j), PairTerm(s, i, j));
  }

  lemma Mp2Is(s: System)
    ensures Sum2(0, s.nocc, 0, s.nocc, s.Energies()) == Mp2(s)
  {
    hide Sum2;
    forall i, j
      ensures s.Energies()(i, j) == 1.0 * PairSums(s)(i, j)
    {
      PairSumIs(s, i, j);
    }
    Sum2Scale(0, s.nocc, 0, s.nocc, 1.0, s.Energies(), PairSums(s));
  }

  /** Everything that the energy may read is the same. */
  ghost predicate Agree(s: System, s': System) {
    && s.nocc == s'.nocc && s.n == s'.n
    && (forall i | 0 <= i < s.nocc :: s.eo(i) == s'.eo(i)) && (forall a | 0 <= a < s.n('a') :: s.ev(a) == s'.ev(a))
    && forall q, i, a | 0 <= q < s.n('Q') && 0 <= i < s.nocc && 0 <= a < s.n('a') :: s.b([q, i, a]) == s'.b([q, i, a])
  }

  /** The energy reads the fitted tensor only at auxiliary, occupied and virtual indices in range. */
  lemma Mp2IsLocal(s: System, s': System)
    requires Agree(s, s')
    ensures Mp2(s) == Mp2(s')
  {
    hide Sum2, PairTerm, Agree;
    assert s.nocc == s'.nocc && s.n == s'.n by {
      AgreeSizes(s, s');
    }
    forall i, j | 0 <= i < s.nocc && 0 <= j < s.nocc
      ensures PairSums(s)(i, j) == 1.0 * PairSums(s')(i, j)
    {
      forall a, c | 0 <= a < s.n('a') && 0 <= c < s.n('a')
        ensures PairTerm(s, i, j)(a, c) == 1.0 * PairTerm(s', i, j)(a, c)
      {
        PairTermIsLocal(s, s', i, j, a, c);
      }
      Sum2Scale(0, s.n('a'), 0, s.n('a'), 1.0, PairTerm(s, i, j), PairTerm(s', i, j));
    }
    Sum2Scale(0, s.nocc, 0, s.nocc, 1.0, PairSums(s), PairSums(s'));
  }

  lemma AgreeSizes(s: System, s': System)
    requires Agree(s, s')
    ensures s.nocc == s'.nocc && s.n == s'.n
  {
  }

  lemma PairTermIsLocal(s: System, s': System, i: int, j: int, a: int, c: int)
    requires Agree(s, s') && 0 <= i < s.nocc && 0 <= j < s.nocc && 0 <= a < s.n('a') && 0 <= c < s.n('a')
    ensures PairTerm(s, i, j)(a, c) == PairTerm(s', i, j)(a, c)
  {
    RepulsionIsLocal(s, s', i, j, a, c);
    RepulsionIsLocal(s, s', i, j, c, a);
    assert s.eo(i) == s'.eo(i) && s.eo(j) == s'.eo(j) && s.ev(a) == s'.ev(a) && s.ev(c) == s'.ev(c);
  }

  lemma RepulsionIsLocal(s: System, s': System, i: int, j: int, a: int, c: int)
    requires Agree(s, s') && 0 <= i < s.nocc && 0 <= j < s.nocc && 0 <= a < s.n('a') && 0 <= c < s.n('a')
    ensures Repulsion(s, i, a, j, c) == Repulsion(s', i, a, j, c)
  {
    hide Sum;
    SumScale(0, s.n('Q'), 1.0, Fitted(s, i, a, j, c), Fitted(s', i, a, j, c));
  }

  /** One occupied and one virtual orbital: the square of one integral over twice the gap. */
  lemma OnePair(s: System)
    requires s.nocc == 1 == s.n('a') && s.eo(0) != s.ev(0)
    ensures 2.0 * (s.eo(0) - s.ev(0)) * Mp2(s) == Repulsion(s, 0, 0, 0, 0) * Repulsion(s, 0, 0, 0, 0)
  {
    hide Repulsion, Share, Sum2;
    One(PairSums(s));
    One(PairTerm(s, 0, 0));
    ShareOfOne(Repulsion(s, 0, 0, 0, 0), s.eo(0), s.ev(0));
  }

  lemma ShareOfOne(x: real, e: real, f: real)
    requires e != f
    ensures 2.0 * (e - f) * Share(x, x, e + e - f - f) == x * x
  {
    hide Div;
    DivTimes(x * (2.0 * x - x), e + e - f - f);
    assert 2.0 * (e - f) == e + e - f - f;
  }

  /** Every occupied energy lies below every virtual one. */
  ghost predicate Gapped(s: System) {
    forall i, a | 0 <= i < s.nocc && 0 <= a < s.n('a') :: s.eo(i) < s.ev(a)
  }

  /** With the gap the correlation energy is not positive: a term and its mirror image are a sum of squares over a
      negative number. */
  lemma Mp2Lowers(s: System)
    requires Gapped(s)
    ensures Mp2(s) <= 0.0
  {
    hide Sum2, PairTerm, Gapped;
    forall i, j | 0 <= i < s.nocc && 0 <= j < s.nocc
      ensures PairSums(s)(i, j) <= 0.0
    {
      PairLowers(s, i, j);
    }
    Sum2NotPositive(s.nocc, PairSums(s));
  }

  function WithMirror(f: (int, int) -> real): (int, int) -> real { (a, c) => f(a, c) + Flip(f)(a, c) }

  lemma PairLowers(s: System, i: int, j: int)
    requires Gapped(s) && 0 <= i < s.nocc && 0 <= j < s.nocc
    ensures Sum2(0, s.n('a'), 0, s.n('a'), PairTerm(s, i, j)) <= 0.0
  {
    hide Sum2, PairTerm, Gapped;
    var f, n := PairTerm(s, i, j), s.n('a');
    forall a, c | 0 <= a < n && 0 <= c < n
      ensures WithMirror(f)(a, c) <= 0.0
    {
      MirrorLowers(s, i, j, a, c);
    }
    Sum2NotPositive(n, WithMirror(f));
    Sum2Swap(0, n, 0, n, f);
    Sum2Linear(0, n, 0, n, 1.0, f, 1.0, Flip(f), WithMirror(f));
  }

  lemma MirrorLowers(s: System, i: int, j: int, a: int, c: int)
    requires Gapped(s) && 0 <= i < s.nocc && 0 <= j < s.nocc && 0 <= a < s.n('a') && 0 <= c < s.n('a')
    ensures PairTerm(s, i, j)(a, c) + PairTerm(s, i, j)(c, a) <= 0.0
  {
    hide Repulsion, Share;
    assert s.eo(i) < s.ev(a) && s.eo(j) < s.ev(c);
    var d := s.eo(i) + s.eo(j) - s.ev(a) - s.ev(c);
    assert d == s.eo(i) + s.eo(j) - s.ev(c) - s.ev(a);
    SharesLower(Repulsion(s, i, a, j, c), Repulsion(s, i, c, j, a), d);
  }

  lemma SharesLower(x: real, y: real, d: real)
    requires d < 0.0
    ensures Share(x, y, d) + Share(y, x, d) <= 0.0
  {
    var p, q, z := x * (2.0 * x - y), y * (2.0 * y - x), x - y;
    assert p + q == x * x + y * y + z * z;
    Square(x);
    Square(y);
    Square(z);
    OverNegative(p, q, d);
  }

  lemma Square(x: real)
    ensures x * x >= 0.0
  {
  }

  lemma OverNegative(p: real, q: real, d: real)
    requires d < 0.0 && p + q >= 0.0
    ensures Div(p, d) + Div(q, d) <= 0.0
  {
    var r := p / d + q / d;
    assert r * d == p + q;
  }

  lemma One(f: (int, int) -> real)
    ensures Sum2(0, 1, 0, 1, f) == f(0, 0)
  {
    SumLast(0, 0, Row(0, 1, f));
    SumLast(0, 0, At(f, 0));
  }

  // ---- the source's operations over the reals -----------------------------------------------------

  function Transposed(x: Val): Val { y => x(Look(Bind("ab", y), "ba")) }

  function Reciprocal(w: Val): Val { x => Div(1.0, w(x)) }

  function Ones(): Val { x => 1.0 }

  /** The source's kernels over the reals. */
  function RealKernels(s: System): Kernels<Val, real> {
    Kernels(
      (x: Val, y: Val) => Ein(s.n, "ab", "Q", [Op("Qa", x), Op("Qb", y)]),
      Transposed,
      Times,
      (c: real, x: Val, y: Val) => Axpby(c, x, 1.0, y),
      Reciprocal,
      Product,
      (x: Val, y: Val) => Dot(s.n, "ab", x, y),
      (w: real, x: real, y: real) => w * x + y)
  }

  function RealData(s: System): Data<Val, real> {
    Data(i => View(s.b, 1, [i]), s.Dbase(), Ones(), (i, j) => s.eo(i) + s.eo(j), 1.0, 2.0, -1.0)
  }

  /** The pairs i <= j in loop order, from (i, j) on. */
  function PairsFrom(i: nat, j: nat, nocc: nat): seq<Pair>
    requires i <= j <= nocc
    decreases nocc - i, nocc - j
  {
    if i == nocc then []
    else if j == nocc then PairsFrom(i + 1, i + 1, nocc)
    else [(i, j)] + PairsFrom(i, j + 1, nocc)
  }

  lemma TransposedElement(s: System, i: int, j: int, a: int, c: int)
    ensures s.Integrals(j, i)([a, c]) == s.Integrals(i, j)([c, a])
  {
    hide Over, View, Term, Bind;
    var u, v := View(s.b, 1, [i]), View(s.b, 1, [j]);
    forall q
      ensures Term(Put(Bind("ab", [a, c]), 'Q', q), [Op("Qa", v), Op("Qb", u)])
           == Term(Put(Bind("ab", [c, a]), 'Q', q), [Op("Qa", u), Op("Qb", v)])
    {
      QTerms(u, v, q, a, c);
    }
    OneLabel(s.n, 'Q', Bind("ab", [a, c]), Bind("ab", [c, a]), [Op("Qa", v), Op("Qb", u)], [Op("Qa", u), Op("Qb", v)]);
  }

  lemma QTerms(u: Val, v: Val, q: int, a: int, c: int)
    ensures Term(Put(Bind("ab", [a, c]), 'Q', q), [Op("Qa", v), Op("Qb", u)])
         == Term(Put(Bind("ab", [c, a]), 'Q', q), [Op("Qa", u), Op("Qb", v)])
  {
    hide Term;
    var e, e' := Put(Bind("ab", [a, c]), 'Q', q), Put(Bind("ab", [c, a]), 'Q', q);
    Term2(e, Op("Qa", v), Op("Qb", u));
    Term2(e', Op("Qa", u), Op("Qb", v));
    Bind2("ab", [a, c]);
    Bind2("ab", [c, a]);
    assert Look(e, "Qa") == [q, a] == Look(e', "Qb") && Look(e, "Qb") == [q, c] == Look(e', "Qa");
  }

  lemma ElementTransposed(s: System, i: int, j: int, a: int, c: int)
    ensures s.Element(j, i)(a, c) == s.Element(i, j)(c, a)
  {
    hide Ein;
    TransposedElement(s, i, j, a, c);
    TransposedElement(s, i, j, c, a);
    assert s.eo(j) + s.eo(i) - s.ev(a) - s.ev(c) == s.eo(i) + s.eo(j) - s.ev(c) - s.ev(a);
  }

  /** The energy of (j, i) is the energy of (i, j). */
  lemma EnergiesSymmetric(s: System, i: int, j: int)
    ensures s.Energies()(j, i) == s.Energies()(i, j)
  {
    hide Ein, Sum2;
    var f, g := s.Element(i, j), s.Element(j, i);
    forall a, c
      ensures g(a, c) == 1.0 * Flip(f)(a, c)
    {
      ElementTransposed(s, i, j, a, c);
    }
    Sum2Scale(0, s.n('a'), 0, s.n('a'), 1.0, g, Flip(f));
    Sum2Swap(0, s.n('a'), 0, s.n('a'), f);
  }

  /** Weight one on the diagonal and two above it, row by row. */
  function Triangle(lo: int, hi: int, f: (int, int) -> real): real
    decreases hi - lo
  {
    if lo >= hi then 0.0 else f(lo, lo) + 2.0 * Sum(lo + 1, hi, At(f, lo)) + Triangle(lo + 1, hi, f)
  }

  lemma {:induction false} TriangleIsSquare(lo: int, hi: int, f: (int, int) -> real)
    requires forall i, j :: f(i, j) == f(j, i)
    ensures Triangle(lo, hi, f) == Sum2(lo, hi, lo, hi, f)
    decreases hi - lo
  {
    if lo < hi {
      PeelSquare(lo, hi, f);
      SumScale(lo + 1, hi, 1.0, At(Flip(f), lo), At(f, lo));
      TriangleIsSquare(lo + 1, hi, f);
    }
  }

  /** What is left of the weighted triangle when the loop stands at (i, j). */
  function Remaining(i: int, j: int, hi: int, f: (int, int) -> real): real {
    if i >= hi then 0.0
    else (if i == j then Triangle(i, hi, f) else 2.0 * Sum(j, hi, At(f, i)) + Triangle(i + 1, hi, f))
  }

  lemma RemainingStep(i: int, j: int, hi: int, f: (int, int) -> real)
    requires i <= j < hi
    ensures Remaining(i, j, hi, f) == (if i == j then f(i, j) else 2.0 * f(i, j)) + Remaining(i, j + 1, hi, f)
    ensures Remaining(i, hi, hi, f) == Remaining(i + 1, i + 1, hi, f)
  {
  }

  lemma ElementProduct(s: System, kab: Val, tab: Val, i: int, j: int, a: int, c: int)
    requires kab([a, c]) == 2.0 * s.Integrals(i, j)([a, c]) - s.Integrals(i, j)([c, a])
    requires tab([a, c]) == s.Integrals(i, j)([a, c]) * Div(1.0, s.eo(i) + s.eo(j) - s.ev(a) - s.ev(c))
    ensures kab([a, c]) * tab([a, c]) == s.Element(i, j)(a, c)
  {
    hide Ein, Div;
  }

  lemma PairDot(s: System, kab: Val, tab: Val, i: int, j: int)
    requires s.n('a') == s.n('b')
    requires forall a, c :: kab([a, c]) * tab([a, c]) == s.Element(i, j)(a, c)
    ensures Dot(s.n, "ab", kab, tab) == s.Energies()(i, j)
  {
    hide Over, Sum2, Ein;
    var ops := [Op("ab", kab), Op("ab", tab)];
    var f := Cell(s.n, 'a', 'b', "", map[], ops);
    assert "ab" == ['a', 'b'] + "";
    TwoLabels(s.n, 'a', 'b', "", map[], ops);
    forall a, c
      ensures f(a, c) == 1.0 * s.Element(i, j)(a, c)
    {
      CellElement(s.n, kab, tab, a, c);
    }
    Sum2Scale(0, s.n('a'), 0, s.n('a'), 1.0, f, s.Element(i, j));
  }

  lemma CellElement(n: Extents, kab: Val, tab: Val, a: int, c: int)
    ensures Cell(n, 'a', 'b', "", map[], [Op("ab", kab), Op("ab", tab)])(a, c) == kab([a, c]) * tab([a, c])
  {
    var e := Put(Put(map[], 'a', a), 'b', c);
    assert Look(e, "ab") == [a, c];
    Term2(e, Op("ab", kab), Op("ab", tab));
  }

  lemma RealPairEnergy(s: System, i: int, j: int)
    requires s.n('a') == s.n('b')
    ensures PairEnergy(RealKernels(s), RealData(s), (i, j)) == s.Energies()(i, j)
  {
    hide Ein, Dot;
    var iab := s.Integrals(i, j);
    var kab := Axpby(-1.0, Transposed(iab), 1.0, Times(2.0, iab));
    var wab := Reciprocal(Axpby(s.eo(i) + s.eo(j), Ones(), 1.0, Times(1.0, s.Dbase())));
    var tab := Product(iab, wab);
    forall a, c
      ensures kab([a, c]) * tab([a, c]) == s.Element(i, j)(a, c)
    {
      RealElement(s, i, j, a, c);
    }
    PairDot(s, kab, tab, i, j);
  }

  lemma RealElement(s: System, i: int, j: int, a: int, c: int)
    ensures var iab := s.Integrals(i, j);
            var wab := Reciprocal(Axpby(s.eo(i) + s.eo(j), Ones(), 1.0, Times(1.0, s.Dbase())));
            (Axpby(-1.0, Transposed(iab), 1.0, Times(2.0, iab))([a, c]) * Product(iab, wab)([a, c])
             == s.Element(i, j)(a, c))
  {
    hide Ein, Transposed, Div;
    var iab := s.Integrals(i, j);
    TransposedAt(iab, a, c);
    ElementProduct(s, Axpby(-1.0, Transposed(iab), 1.0, Times(2.0, iab)),
                   Product(iab, Reciprocal(Axpby(s.eo(i) + s.eo(j), Ones(), 1.0, Times(1.0, s.Dbase())))), i, j, a, c);
  }

  lemma TransposedAt(x: Val, a: int, c: int)
    ensures Transposed(x)([a, c]) == x([c, a])
  {
    Bind2("ab", [a, c]);
    assert Look(Bind("ab", [a, c]), "ba") == [c, a];
  }

  /** The captured fold, run on real arithmetic, adds the sum over all occupied pairs. */
  lemma {:induction false} RealFold(s: System, i: nat, j: nat, e: real)
    requires s.n('a') == s.n('b') && i <= j <= s.nocc
    ensures Fold(RealKernels(s), RealData(s), PairsFrom(i, j, s.nocc), e) == e + Remaining(i, j, s.nocc, s.Energies())
    decreases s.nocc - i, s.nocc - j
  {
    hide PairEnergy;
    if i < s.nocc {
      if j == s.nocc {
        RealFold(s, i + 1, i + 1, e);
      } else {
        RemainingStep(i, j, s.nocc, s.Energies());
        RealPairEnergy(s, i, j);
        var rest := PairsFrom(i, j + 1, s.nocc);
        assert ([(i, j)] + rest)[1..] == rest;
        RealFold(s, i, j + 1, (if i == j then 1.0 else 2.0) * s.Energies()(i, j) + e);
      }
    }
  }

  /** Grouped or per pair, over the reals: the unrestricted sum over i and j. */
  lemma RealEnergyIsFullSum(s: System)
    requires s.n('a') == s.n('b')
    ensures Fold(RealKernels(s), RealData(s), PairsFrom(0, 0, s.nocc), 0.0) == Mp2(s)
  {
    hide Sum2, Fold, Mp2;
    RealFold(s, 0, 0, 0.0);
    FullSum(s);
    Mp2Is(s);
  }

  class Eager {
    const s: System
    var iab: Val
    var iba: Val
    var kab: Val
    var wab: Val
    var tab: Val

    constructor (s: System, scratch: Val)
      ensures this.s == s
    {
      this.s := s;
      iab, iba, kab, wab, tab := scratch, scratch, scratch, scratch, scratch;
    }

    /** The double loop over i <= j returns the sum over all occupied pairs. */
    method Correlation() returns (ecorr: real)
      requires s.n('a') == s.n('b')
      modifies this
      ensures ecorr == Mp2(s)
    {
      hide Sum2, Triangle, Mp2;
      ghost var f := s.Energies();
      ecorr := 0.0;
      for i := 0 to s.nocc
        invariant ecorr + Remaining(i, i, s.nocc, f) == Remaining(0, 0, s.nocc, f)
      {
        for j := i to s.nocc
          invariant ecorr + Remaining(i, j, s.nocc, f) == Remaining(0, 0, s.nocc, f)
        {
          var ePair := Pair(i, j);
          RemainingStep(i, j, s.nocc, f);
          ecorr := ecorr + if i == j then ePair else 2.0 * ePair;
        }
        RemainingStep(i, i, s.nocc, f);
      }
      FullSum(s);
      Mp2Is(s);
    }

    method Pair(i: int, j: int) returns (ePair: real)
      requires s.n('a') == s.n('b')
      modifies this
      ensures ePair == s.Energies()(i, j) == PairSums(s)(i, j)
    {
      hide Ein, Dot, Div, Sum2, PairTerm;
      PairSumIs(s, i, j);
      Numerator(i, j);
      Amplitude(i, j);
      ePair := Dot(s.n, "ab", kab, tab);
      forall a, c
        ensures kab([a, c]) * tab([a, c]) == s.Element(i, j)(a, c)
      {
        ElementProduct(s, kab, tab, i, j, a, c);
      }
      PairDot(s, kab, tab, i, j);
    }

    method Numerator(i: int, j: int)
      modifies this`iab, this`iba, this`kab
      ensures SameOn(2, iab, s.Integrals(i, j))
      ensures forall a, c {:trigger kab([a, c])} :: kab([a, c])
                == 2.0 * s.Integrals(i, j)([a, c]) - s.Integrals(i, j)([c, a])
    {
      hide Ein;
      iab := EinInto(s.n, "ab", "Q", [Op("Qa", View(s.b, 1, [i])), Op("Qb", View(s.b, 1, [j]))], 1.0, 0.0, iab);
      iba := Permute("ab", "ba", iba, iab, 0.0, 1.0);
      kab := Axpby(2.0, iab, 0.0, kab);
      kab := Axpby(-1.0, iba, 1.0, kab);
      forall a, c
        ensures kab([a, c]) == 2.0 * s.Integrals(i, j)([a, c]) - s.Integrals(i, j)([c, a])
      {
        TransposedAt(iab, a, c);
      }
    }

    method Amplitude(i: int, j: int)
      requires SameOn(2, iab, s.Integrals(i, j))
      modifies this`wab, this`tab
      ensures forall a, c {:trigger tab([a, c])} ::
                tab([a, c]) == s.Integrals(i, j)([a, c]) * Div(1.0, s.eo(i) + s.eo(j) - s.ev(a) - s.ev(c))
    {
      hide Ein, Div;
      wab := Axpby(1.0, s.Dbase(), 0.0, wab);
      wab := Axpby(s.eo(i) + s.eo(j), Ones(), 1.0, wab);
      wab := Reciprocal(wab);
      tab := Axpby(1.0, Product(iab, wab), 0.0, tab);
    }
  }

  lemma FullSum(s: System)
    ensures Remaining(0, 0, s.nocc, s.Energies()) == Sum2(0, s.nocc, 0, s.nocc, s.Energies())
  {
    hide Sum2;
    forall i, j
      ensures s.Energies()(i, j) == s.Energies()(j, i)
    {
      EnergiesSymmetric(s, i, j);
    }
    TriangleIsSquare(0, s.nocc, s.Energies());
  }
}
