/** The four spellings of the triples energy as programs over reused scratch tensors: the
    whole-tensor capture and the capture blocked over i < j < k, each naive or folded. */
module TriplesGraph {
  import opened Sums
  import opened Einsum
  import opened Contractions
  import opened SpinOrbital
  import opened Ccsd
  import opened Triples

  // ---- full contractions as sums ------------------------------------------------------------

  function Elements3(f: Val): Triple { (a, b, c) => f([a, b, c]) }

  function Bind3(env: Env, s: string, x: int, y: int, z: int): Env
    requires |s| == 3
  {
    Put(Put(Put(env, s[0], x), s[1], y), s[2], z)
  }

  lemma DotCell(n: Extents, a: Val, b: Val, labels: string, env: Env, x: int, y: int, z: int)
    ensures Cell3(n, "abc", "", env, [Op(labels, a), Op(labels, b)])(x, y, z)
         == a(Look(Bind3(env, "abc", x, y, z), labels)) * b(Look(Bind3(env, "abc", x, y, z), labels))
  {
    hide Look, Over, Term;
    var e, ops := Bind3(env, "abc", x, y, z), [Op(labels, a), Op(labels, b)];
    Term2(e, ops[0], ops[1]);
    OverNone(n, "", e, ops);
  }

  lemma VirtualDot(s: System, a: Val, b: Val, labels: string, env: Env, f: Triple)
    requires forall x, y, z ::
               a(Look(Bind3(env, "abc", x, y, z), labels)) * b(Look(Bind3(env, "abc", x, y, z), labels)) == f(x, y, z)
    ensures Over(s.Extents(), "abc", env, [Op(labels, a), Op(labels, b)]) == Sum3(0, s.nv, f)
  {
    hide Look, Over, Term, Sum3, Cell3, Bind3;
    var n, ops := s.Extents(), [Op(labels, a), Op(labels, b)];
    var cells := Cell3(n, "abc", "", env, ops);
    assert "abc" + "" == "abc";
    ThreeLabels(n, "abc", "", env, ops);
    forall x, y, z
      ensures cells(x, y, z) == 1.0 * f(x, y, z)
    {
      DotCell(n, a, b, labels, env, x, y, z);
    }
    Sum3Scale(0, s.nv, 1.0, cells, f);
  }

  lemma DotOfBlocks(s: System, a: Val, b: Val)
    ensures Dot(s.Extents(), "abc", a, b) == Sum3(0, s.nv, Elements3(Product(a, b)))
  {
    forall x, y, z
      ensures Look(Bind3(map[], "abc", x, y, z), "abc") == [x, y, z]
    {
    }
    VirtualDot(s, a, b, "abc", map[], Elements3(Product(a, b)));
  }

  lemma BlockOfDot(s: System, a: Val, b: Val, i: int, j: int, k: int)
    ensures Over(s.Extents(), "abc", Bind3(map[], "ijk", i, j, k), [Op("ijkabc", a), Op("ijkabc", b)])
         == BlockSum(s.nv, Product(a, b))(i, j, k)
  {
    var env := Bind3(map[], "ijk", i, j, k);
    forall x, y, z
      ensures Look(Bind3(env, "abc", x, y, z), "ijkabc") == [i, j, k, x, y, z]
    {
    }
    hide Over;
    VirtualDot(s, a, b, "ijkabc", env, Elements(Product(a, b), i, j, k));
  }

  lemma BlockCell(s: System, a: Val, b: Val, i: int, j: int, k: int)
    ensures Cell3(s.Extents(), "ijk", "abc", map[], [Op("ijkabc", a), Op("ijkabc", b)])(i, j, k)
              == BlockSum(s.nv, Product(a, b))(i, j, k)
  {
    hide Over, BlockSum, Look;
    BlockOfDot(s, a, b, i, j, k);
  }

  lemma DotOfTensors(s: System, a: Val, b: Val)
    ensures Dot(s.Extents(), "ijkabc", a, b) == Sum6(s, Product(a, b))
  {
    hide Over, Sum3, BlockSum, Cell3, Look;
    var n, ops := s.Extents(), [Op("ijkabc", a), Op("ijkabc", b)];
    var cells := Cell3(n, "ijk", "abc", map[], ops);
    assert "ijk" + "abc" == "ijkabc";
    ThreeLabels(n, "ijk", "abc", map[], ops);
    forall i, j, k
      ensures cells(i, j, k) == 1.0 * BlockSum(s.nv, Product(a, b))(i, j, k)
    {
      BlockCell(s, a, b, i, j, k);
    }
    Sum3Scale(0, s.no, 1.0, cells, BlockSum(s.nv, Product(a, b)));
  }

  // ---- the nine permuted accumulations --------------------------------------------------------

  /** The permutation and sign of the n-th term of P(i/jk) P(a/bc). */
  function PijkPabc(n: nat): (string, real)
    requires n < 9
  {
    match n
    case 0 => ("ijkabc", 1.0)
    case 1 => ("jikabc", -1.0)
    case 2 => ("kjiabc", -1.0)
    case 3 => ("ijkbac", -1.0)
    case 4 => ("ijkcba", -1.0)
    case 5 => ("jikbac", 1.0)
    case 6 => ("jikcba", 1.0)
    case 7 => ("kjibac", 1.0)
    case 8 => ("kjicba", 1.0)
  }

  /** The element that a permutation spec reads. */
  function Read(src: Val, spec: string, x: seq<int>): real { src(Look(Bind(spec, x), "ijkabc")) }

  /** The sum of the first n signed permuted copies. */
  function Partial(n: nat, src: Val, x: seq<int>): real
    requires n <= 9
  {
    if n == 0 then 0.0 else Partial(n - 1, src, x) + PijkPabc(n - 1).1 * Read(src, PijkPabc(n - 1).0, x)
  }

  /** dst <- P(i/jk) P(a/bc) src: one overwrite and eight permuted accumulations. */
  method Antisymmetrize(dst: Val, src: Val) returns (r: Val)
    ensures SameOn(6, r, Antisymmetrized6(src))
  {
    hide Bind, Look, Antisymmetrized6;
    r := Axpby(PijkPabc(0).1, src, 0.0, dst);
    forall x: seq<int> | |x| == 6
      ensures r(x) == Partial(1, src, x)
    {
      FirstTerm(src, x);
    }
    for n := 1 to 9
      invariant forall x | |x| == 6 :: r(x) == Partial(n, src, x)
    {
      hide Permute, PijkPabc;
      var (spec, sign) := PijkPabc(n);
      NextTerm(n, r, src);
      r := Permute(spec, "ijkabc", r, src, 1.0, sign);
    }
    forall x: seq<int> | |x| == 6
      ensures r(x) == Antisymmetrized6(src)(x)
    {
      hide Antisymmetrized6, Partial;
      NineTerms(src, x);
    }
  }

  lemma NextTerm(n: nat, r: Val, src: Val)
    requires n < 9 && forall x | |x| == 6 :: r(x) == Partial(n, src, x)
    ensures forall x {:trigger Partial(n + 1, src, x)} | |x| == 6 ::
              Permute(PijkPabc(n).0, "ijkabc", r, src, 1.0, PijkPabc(n).1)(x) == Partial(n + 1, src, x)
  {
    hide PijkPabc, Bind, Look, Partial;
    var (spec, sign) := PijkPabc(n);
    forall x: seq<int> | |x| == 6
      ensures Permute(spec, "ijkabc", r, src, 1.0, sign)(x) == Partial(n + 1, src, x)
    {
      PartialStep(n, src, x);
      assert r(x) == Partial(n, src, x);
    }
  }

  lemma PartialStep(n: nat, src: Val, x: seq<int>)
    requires n < 9
    ensures Partial(n + 1, src, x) == Partial(n, src, x) + PijkPabc(n).1 * Read(src, PijkPabc(n).0, x)
  {
    hide PijkPabc, Read;
  }

  lemma FirstTerm(src: Val, x: seq<int>)
    requires |x| == 6
    ensures Partial(1, src, x) == src(x) == Read(src, "ijkabc", x)
  {
    hide Bind, Look;
    LookSelf("ijkabc", x);
  }

  lemma OneExchange(src: Val, x: seq<int>)
    requires |x| == 6
    ensures Read(src, "jikabc", x) == src(Exchange(x, 0, 1)) && Read(src, "kjiabc", x) == src(Exchange(x, 0, 2))
    ensures Read(src, "ijkbac", x) == src(Exchange(x, 3, 4)) && Read(src, "ijkcba", x) == src(Exchange(x, 3, 5))
  {
    hide Bind, Look, Exchange;
    LookExchanges("jikabc", "ijkabc", x, 0, 1);
    LookExchanges("kjiabc", "ijkabc", x, 0, 2);
    LookExchanges("ijkbac", "ijkabc", x, 3, 4);
    LookExchanges("ijkcba", "ijkabc", x, 3, 5);
  }

  lemma TwoExchanges(src: Val, x: seq<int>)
    requires |x| == 6
    ensures Read(src, "jikbac", x) == src(Exchange(Exchange(x, 3, 4), 0, 1))
    ensures Read(src, "jikcba", x) == src(Exchange(Exchange(x, 3, 5), 0, 1))
    ensures Read(src, "kjibac", x) == src(Exchange(Exchange(x, 3, 4), 0, 2))
    ensures Read(src, "kjicba", x) == src(Exchange(Exchange(x, 3, 5), 0, 2))
  {
    hide Bind, Look, Exchange;
    LookExchangesTwice("jikbac", "jikabc", "ijkabc", x, 3, 4, 0, 1);
    LookExchangesTwice("jikcba", "jikabc", "ijkabc", x, 3, 5, 0, 1);
    LookExchangesTwice("kjibac", "kjiabc", "ijkabc", x, 3, 4, 0, 2);
    LookExchangesTwice("kjicba", "kjiabc", "ijkabc", x, 3, 5, 0, 2);
  }

  lemma NineTerms(src: Val, x: seq<int>)
    requires |x| == 6
    ensures Partial(9, src, x) == Antisymmetrized6(src)(x)
  {
    hide Read, Exchange, Partial;
    FirstTerm(src, x);
    PartialStep(1, src, x);
    PartialStep(2, src, x);
    PartialStep(3, src, x);
    PartialStep(4, src, x);
    PartialStep(5, src, x);
    PartialStep(6, src, x);
    PartialStep(7, src, x);
    PartialStep(8, src, x);
    OneExchange(src, x);
    TwoExchanges(src, x);
    NineElements(src, x);
  }

  lemma NineElements(a: Val, x: seq<int>)
    ensures Antisymmetrized6(a)(x)
         == a(x) - a(Exchange(x, 0, 1)) - a(Exchange(x, 0, 2)) - a(Exchange(x, 3, 4)) - a(Exchange(x, 3, 5))
          + a(Exchange(Exchange(x, 3, 4), 0, 1)) + a(Exchange(Exchange(x, 3, 5), 0, 1))
          + a(Exchange(Exchange(x, 3, 4), 0, 2)) + a(Exchange(Exchange(x, 3, 5), 0, 2))
  {
    hide Exchange;
  }

  // ---- the whole-tensor capture -----------------------------------------------------------------

  /** Rank-6 scratch, reused by every replay; the amplitudes and integrals are only read. */
  class WholeTensor {
    const s: System
    const t: Amps
    var xc: Val
    var xd: Val
    var w: Val
    var v: Val
    var wd: Val
    var et: real

    constructor (s: System, t: Amps)
      ensures this.s == s && this.t == t
    {
      this.s, this.t := s, t;
      xc, xd, w, v, wd, et := Zeros(), Zeros(), Zeros(), Zeros(), Zeros(), 0.0;
    }

    function Into(dst: Val, summed: string, ia: string, a: Val, ib: string, b: Val, pf: real, acc: bool): Val {
      EinInto(s.Extents(), "ijkabc", summed, [Op(ia, a), Op(ib, b)], pf, if acc then 1.0 else 0.0, dst)
    }

    /** One replay leaves the oracle's energy, naive or folded, whatever the scratch held before. */
    method Replay(folded: bool)
      modifies this
      ensures et == if folded then Folded(s, t) else Naive(s, t)
    {
      hide W, V, Xc, Xd, Dot, Sum6, DirectDivision;
      Connected();
      Disconnected();
      AntisymmetrizeConnected();
      if folded {
        xc := Axpby(1.0, xd, 1.0, xc);
        assert SameOn(6, xc, Plus(Xc(s, t), Xd(s, t)));
        et := Dot(s.Extents(), "ijkabc", wd, xc);
        DotSame(s, wd, Divide(W(s, t), s.Dijkabc()), xc, Plus(Xc(s, t), Xd(s, t)));
        et := 0.25 * et;
      } else {
        AddDisconnected();
        et := Dot(s.Extents(), "ijkabc", wd, v);
        DotSame(s, wd, Divide(W(s, t), s.Dijkabc()), v, Plus(W(s, t), V(s, t)));
        NaiveAsDot(s, t);
        et := 1.0 / 36.0 * et;
      }
    }

    method AntisymmetrizeConnected()
      requires SameOn(6, xc, Xc(s, t))
      modifies this`w, this`wd
      ensures SameOn(6, w, W(s, t)) && SameOn(6, wd, Divide(W(s, t), s.Dijkabc()))
    {
      w := Antisymmetrize(w, xc);
      assert SameOn(6, w, W(s, t)) by { SameAntisymmetrized(xc, Xc(s, t)); }
      hide W, Xc;
      wd := DirectDivision(1.0, w, s.Dijkabc(), 0.0, wd);
    }

    method Connected()
      modifies this`xc
      ensures SameOn(6, xc, Xc(s, t))
    {
      hide Ein;
      xc := Into(xc, "e", "jkae", t.t2, "eibc", s.Block("vovv"), 1.0, false);
      xc := Into(xc, "m", "imbc", t.t2, "majk", s.Block("ovoo"), -1.0, true);
    }

    method Disconnected()
      modifies this`xd
      ensures SameOn(6, xd, Xd(s, t))
    {
      hide Ein;
      xd := Into(xd, "", "ia", t.t1, "jkbc", s.Block("oovv"), 1.0, false);
    }

    method AddDisconnected()
      requires SameOn(6, w, W(s, t)) && SameOn(6, xd, Xd(s, t))
      modifies this`v
      ensures SameOn(6, v, Plus(W(s, t), V(s, t)))
    {
      v := Antisymmetrize(v, xd);
      assert SameOn(6, v, V(s, t)) by { SameAntisymmetrized(xd, Xd(s, t)); }
      hide W, V, Xd;
      v := Axpby(1.0, w, 1.0, v);
    }
  }

  lemma SameAntisymmetrized(a: Val, b: Val)
    requires SameOn(6, a, b)
    ensures SameOn(6, Antisymmetrized6(a), Antisymmetrized6(b))
  {
    forall x: seq<int> | |x| == 6
      ensures Antisymmetrized6(a)(x) == Antisymmetrized6(b)(x)
    {
      hide Exchange;
      NineElements(a, x);
      NineElements(b, x);
    }
  }

  lemma DotSame(s: System, a: Val, a': Val, b: Val, b': Val)
    requires SameOn(6, a, a') && SameOn(6, b, b')
    ensures Dot(s.Extents(), "ijkabc", a, b) == Sum6(s, Product(a', b'))
  {
    hide Dot, Sum6;
    DotOfTensors(s, a, b);
    Sum6Linear(s, 1.0, Product(a', b'), 0.0, Product(a', b'), Product(a, b));
  }

  lemma NaiveAsDot(s: System, t: Amps)
    ensures Naive(s, t) == Sum6(s, Product(Divide(W(s, t), s.Dijkabc()), Plus(W(s, t), V(s, t)))) / 36.0
  {
    hide W, V, Sum6;
    var f := Product(Divide(W(s, t), s.Dijkabc()), Plus(W(s, t), V(s, t)));
    forall x: seq<int> | |x| == 6
      ensures Summand(s, t)(x) == 1.0 * f(x) + 0.0 * f(x)
    {
      DivByProduct(W(s, t)(x), W(s, t)(x) + V(s, t)(x), s.Dijkabc()(x));
    }
    Sum6Linear(s, 1.0, f, 0.0, f, Summand(s, t));
  }
}
