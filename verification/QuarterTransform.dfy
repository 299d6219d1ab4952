/** The in-core AO to MO transform: four integral blocks through one tree of quarter
    transforms with shared intermediates, against their direct four-fold sums.  AO labels are
    M, N, L, S (mu, nu, lambda, sigma); i, j, k, l are occupied and a, b virtual. */
module QuarterTransform {
  import opened Einsum
  import opened Contractions

  /** Every block is the five-operand contraction of the AO integrals with four coefficient blocks. */
  function Oooo(n: Extents, co: Val, ao: Val): Val {
    Ein(n, "ijkl", "MNLS", [Op("Mi", co), Op("Nj", co), Op("MNLS", ao), Op("Lk", co), Op("Sl", co)])
  }

  function Ooov(n: Extents, co: Val, cv: Val, ao: Val): Val {
    Ein(n, "ijka", "MNLS", [Op("Mi", co), Op("Nj", co), Op("MNLS", ao), Op("Lk", co), Op("Sa", cv)])
  }

  function Oovv(n: Extents, co: Val, cv: Val, ao: Val): Val {
    Ein(n, "ijab", "MNLS", [Op("Mi", co), Op("Nj", co), Op("MNLS", ao), Op("La", cv), Op("Sb", cv)])
  }

  function Ovov(n: Extents, co: Val, cv: Val, ao: Val): Val {
    Ein(n, "iajb", "MNLS", [Op("Mi", co), Op("Na", cv), Op("MNLS", ao), Op("Lj", co), Op("Sb", cv)])
  }

  // ---- four quarter transforms are one contraction ------------------------------------------

  /** `x` holds the einsum of a coefficient block with the tensor before it. */
  ghost predicate Quarter(n: Extents, idx: string, l: string, x: Val, c: Operand, before: Operand) {
    forall y | |y| == |idx| :: x(y) == Ein(n, idx, l, [c, before])(y)
  }

  lemma RestAfter(n: Extents, summed: string, e: Env, c: Operand, x: Operand, rest: seq<Operand>)
    ensures Over(n, summed, e, [c, x] + rest) == Over(n, summed, e, [x] + ([c] + rest))
  {
    hide Over, Term;
    forall f
      ensures Term(f, [c, x] + rest) == Term(f, [x] + ([c] + rest))
    {
      assert [c, x] + rest == [c] + ([x] + rest) ;
      TermHead(f, c, [x] + rest);
      TermHead(f, x, rest);
      TermHead(f, x, [c] + rest);
      TermHead(f, c, rest);
      var u, v, w := c.val(Look(f, c.idx)), x.val(Look(f, x.idx)), Term(f, rest);
      assert u * (v * w) == v * (u * w);
    }
    OverDependsOnTerms(n, summed, e, [c, x] + rest, [x] + ([c] + rest));
  }

  /** Opens one stored quarter transform inside a larger contraction. */
  lemma OpenQuarter(n: Extents, outer: string, idx: string, l: string, x: Val, c: Operand, before: Operand,
                    rest: seq<Operand>, e: Env)
    requires Quarter(n, idx, l, x, c, before) && Storable(idx, l, [c, before], rest)
    ensures Over(n, outer, e, [Op(idx, x)] + rest) == Over(n, outer + l, e, [before] + ([c] + rest))
  {
    hide Over, Ein, Storable;
    StoredIntermediate(n, outer, idx, l, x, [c, before], rest, e);
    RestAfter(n, outer + l, e, c, before, rest);
  }

  /** The chain of four quarters, in the order l1, l2, l3, l4, is the direct five-operand contraction. */
  lemma Chain(n: Extents, out: string, l1: string, l2: string, l3: string, l4: string,
              c1: Operand, c2: Operand, c3: Operand, c4: Operand, ao: Operand,
              idx1: string, x1: Val, idx2: string, x2: Val, idx3: string, x3: Val, y: seq<int>)
    requires Quarter(n, idx1, l1, x1, c1, ao) && Quarter(n, idx2, l2, x2, c2, Op(idx1, x1)) &&
             Quarter(n, idx3, l3, x3, c3, Op(idx2, x2))
    requires Storable(idx3, l3, [c3, Op(idx2, x2)], [c4])
    requires Storable(idx2, l2, [c2, Op(idx1, x1)], [c3, c4])
    requires Storable(idx1, l1, [c1, ao], [c2, c3, c4])
    ensures Ein(n, out, l4, [c4, Op(idx3, x3)])(y) == Over(n, l4 + l3 + l2 + l1, Bind(out, y), [ao, c1, c2, c3, c4])
  {
    hide Over, Ein, Storable, Quarter, Term, Bind;
    var e := Bind(out, y);
    FirstAndLast(n, out, l4, c4, Op(idx3, x3), y);
    assert [Op(idx3, x3)] + [c4] == [Op(idx3, x3), c4];
    OpenQuarter(n, l4, idx3, l3, x3, c3, Op(idx2, x2), [c4], e);
    assert [c3] + [c4] == [c3, c4] && [c2] + [c3, c4] == [c2, c3, c4];
    OpenQuarter(n, l4 + l3, idx2, l2, x2, c2, Op(idx1, x1), [c3, c4], e);
    OpenQuarter(n, l4 + l3 + l2, idx1, l1, x1, c1, ao, [c2, c3, c4], e);
    assert [ao] + ([c1] + [c2, c3, c4]) == [ao, c1, c2, c3, c4];
  }

  lemma FirstAndLast(n: Extents, out: string, l: string, a: Operand, b: Operand, y: seq<int>)
    ensures Ein(n, out, l, [a, b])(y) == Over(n, l, Bind(out, y), [b, a])
  {
    hide Over;
    OperandsCommute(n, out, l, a, b, y);
  }

  /** Moves the AO integrals from the front to their place between the coefficients. */
  lemma FiveOperands(n: Extents, s: string, s': string, e: Env, ao: Operand, c1: Operand, c2: Operand, c3: Operand,
                     c4: Operand)
    requires SameLabels(s, s')
    ensures Over(n, s, e, [ao, c1, c2, c3, c4]) == Over(n, s', e, [c1, c2, ao, c3, c4])
  {
    hide Over, Term, SameLabels;
    OrderOfLabels(n, s, s', e, [ao, c1, c2, c3, c4]);
    forall f
      ensures Term(f, [ao, c1, c2, c3, c4]) == Term(f, [c1, c2, ao, c3, c4])
    {
      FiveTerms(f, ao, c1, c2, c3, c4);
    }
    OverDependsOnTerms(n, s', e, [ao, c1, c2, c3, c4], [c1, c2, ao, c3, c4]);
  }

  lemma FiveTerms(f: Env, ao: Operand, c1: Operand, c2: Operand, c3: Operand, c4: Operand)
    ensures Term(f, [ao, c1, c2, c3, c4]) == Term(f, [c1, c2, ao, c3, c4])
  {
    hide Term;
    assert [ao, c1, c2, c3, c4] == [ao, c1, c2] + [c3, c4] && [c1, c2, ao, c3, c4] == [c1, c2, ao] + [c3, c4];
    TermSplits(f, [ao, c1, c2], [c3, c4]);
    TermSplits(f, [c1, c2, ao], [c3, c4]);
    Term3(f, ao, c1, c2);
    Term3(f, c1, c2, ao);
    var u, v, w := ao.val(Look(f, ao.idx)), c1.val(Look(f, c1.idx)), c2.val(Look(f, c2.idx));
    assert u * v * w == v * w * u;
  }

  class Transform {
    const n: Extents
    const co: Val
    const cv: Val
    const ao: Val
    var inls: Val
    var h1: Val
    var h2: Val
    var ijks: Val
    var ijas: Val
    var iajs: Val
    var oooo: Val
    var ooov: Val
    var oovv: Val
    var ovov: Val

    constructor (n: Extents, co: Val, cv: Val, ao: Val, scratch: Val)
      ensures this.n == n && this.co == co && this.cv == cv && this.ao == ao
    {
      this.n, this.co, this.cv, this.ao := n, co, cv, ao;
      inls, h1, h2, ijks, ijas, iajs := scratch, scratch, scratch, scratch, scratch, scratch;
      oooo, ooov, oovv, ovov := scratch, scratch, scratch, scratch;
    }

    function Into(dst: Val, out: string, l: string, c: Operand, before: Operand): Val {
      EinInto(n, out, l, [c, before], 1.0, 0.0, dst)
    }

    /** The whole capture: ten quarter transforms, three of them shared. */
    method Replay()
      modifies this
      ensures SameOn(4, oooo, Oooo(n, co, ao)) && SameOn(4, ooov, Ooov(n, co, cv, ao))
      ensures SameOn(4, oovv, Oovv(n, co, cv, ao)) && SameOn(4, ovov, Ovov(n, co, cv, ao))
    {
      hide Ein, Oooo, Ooov, Oovv, Ovov, Quarter;
      FirstQuarter();
      OccupiedHalf();
      SharedThird();
      VirtualThird();
      Exchange();
    }

    method FirstQuarter()
      modifies this`inls
      ensures Quarter(n, "iNLS", "M", inls, Op("Mi", co), Op("MNLS", ao))
    {
      hide Ein;
      inls := Into(inls, "iNLS", "M", Op("Mi", co), Op("MNLS", ao));
    }

    method OccupiedHalf()
      modifies this`h1
      ensures Quarter(n, "ijLS", "N", h1, Op("Nj", co), Op("iNLS", inls))
    {
      hide Ein;
      h1 := Into(h1, "ijLS", "N", Op("Nj", co), Op("iNLS", inls));
    }

    /** (ij|ks), shared by oooo and ooov. */
    method SharedThird()
      requires Quarter(n, "iNLS", "M", inls, Op("Mi", co), Op("MNLS", ao)) &&
               Quarter(n, "ijLS", "N", h1, Op("Nj", co), Op("iNLS", inls))
      modifies this`ijks, this`oooo, this`ooov
      ensures SameOn(4, oooo, Oooo(n, co, ao)) && SameOn(4, ooov, Ooov(n, co, cv, ao))
    {
      hide Ein;
      ijks := Into(ijks, "ijkS", "L", Op("Lk", co), Op("ijLS", h1));
      oooo := Into(oooo, "ijkl", "S", Op("Sl", co), Op("ijkS", ijks));
      ooov := Into(ooov, "ijka", "S", Op("Sa", cv), Op("ijkS", ijks));
      assert Quarter(n, "ijkS", "L", ijks, Op("Lk", co), Op("ijLS", h1));
      forall y: seq<int> | |y| == 4
        ensures oooo(y) == Oooo(n, co, ao)(y) && ooov(y) == Ooov(n, co, cv, ao)(y)
      {
        DirectBranch(n, 'k', 'l', co, co, co, ao, inls, h1, ijks, y);
        DirectBranch(n, 'k', 'a', co, co, cv, ao, inls, h1, ijks, y);
      }
    }

    method VirtualThird()
      requires Quarter(n, "iNLS", "M", inls, Op("Mi", co), Op("MNLS", ao)) &&
               Quarter(n, "ijLS", "N", h1, Op("Nj", co), Op("iNLS", inls))
      modifies this`ijas, this`oovv
      ensures SameOn(4, oovv, Oovv(n, co, cv, ao))
    {
      hide Ein;
      ijas := Into(ijas, "ijaS", "L", Op("La", cv), Op("ijLS", h1));
      oovv := Into(oovv, "ijab", "S", Op("Sb", cv), Op("ijaS", ijas));
      assert Quarter(n, "ijaS", "L", ijas, Op("La", cv), Op("ijLS", h1));
      forall y: seq<int> | |y| == 4
        ensures oovv(y) == Oovv(n, co, cv, ao)(y)
      {
        DirectBranch(n, 'a', 'b', co, cv, cv, ao, inls, h1, ijas, y);
      }
    }

    method Exchange()
      requires Quarter(n, "iNLS", "M", inls, Op("Mi", co), Op("MNLS", ao))
      modifies this`h2, this`iajs, this`ovov
      ensures SameOn(4, ovov, Ovov(n, co, cv, ao))
    {
      hide Ein, Ovov;
      h2 := Into(h2, "iNjS", "L", Op("Lj", co), Op("iNLS", inls));
      iajs := Into(iajs, "iajS", "N", Op("Na", cv), Op("iNjS", h2));
      ovov := Into(ovov, "iajb", "S", Op("Sb", cv), Op("iajS", iajs));
      assert Quarter(n, "iNjS", "L", h2, Op("Lj", co), Op("iNLS", inls));
      assert Quarter(n, "iajS", "N", iajs, Op("Na", cv), Op("iNjS", h2));
      forall y: seq<int> | |y| == 4
        ensures ovov(y) == Ovov(n, co, cv, ao)(y)
      {
        ExchangeBranch(n, co, cv, ao, inls, h2, iajs, y);
      }
    }
  }

  /** The branch through (ij|ls): the last two labels p, q and their coefficients tell its three blocks apart. */
  lemma DirectBranch(n: Extents, p: char, q: char, co: Val, cp: Val, cq: Val, ao: Val, x1: Val, x2: Val, x3: Val,
                     y: seq<int>)
    requires p !in "MNLSij" && q !in "MNLS"
    requires Quarter(n, "iNLS", "M", x1, Op("Mi", co), Op("MNLS", ao)) &&
             Quarter(n, "ijLS", "N", x2, Op("Nj", co), Op("iNLS", x1))
    requires Quarter(n, ['i', 'j', p, 'S'], "L", x3, Op(['L', p], cp), Op("ijLS", x2))
    ensures Ein(n, ['i', 'j', p, q], "S", [Op(['S', q], cq), Op(['i', 'j', p, 'S'], x3)])(y)
         == Ein(n, ['i', 'j', p, q], "MNLS",
                [Op("Mi", co), Op("Nj", co), Op("MNLS", ao), Op(['L', p], cp), Op(['S', q], cq)])(y)
  {
    hide Over, Term, Bind, Quarter, Storable, SameLabels;
    var c1, c2, c3, c4 := Op("Mi", co), Op("Nj", co), Op(['L', p], cp), Op(['S', q], cq);
    DirectLastStorable(p, q, x2, cp, cq);
    DirectMiddleStorable(p, q, x1, co, cp, cq);
    DirectFirstStorable(p, q, ao, co, cp, cq);
    Chain(n, ['i', 'j', p, q], "M", "N", "L", "S", c1, c2, c3, c4, Op("MNLS", ao), "iNLS", x1, "ijLS", x2,
          ['i', 'j', p, 'S'], x3, y);
    assert "S" + "L" + "N" + "M" == "SLNM";
    AoLabels();
    FiveOperands(n, "SLNM", "MNLS", Bind(['i', 'j', p, q], y), Op("MNLS", ao), c1, c2, c3, c4);
  }

  lemma AoLabels()
    ensures SameLabels("SLNM", "MNLS") && SameLabels("SNLM", "MNLS")
  {
  }

  lemma DirectLastStorable(p: char, q: char, x2: Val, cp: Val, cq: Val)
    requires p !in "MNLSij" && q != 'L'
    ensures Storable(['i', 'j', p, 'S'], "L", [Op(['L', p], cp), Op("ijLS", x2)], [Op(['S', q], cq)])
  {
  }

  lemma DirectMiddleStorable(p: char, q: char, x1: Val, co: Val, cp: Val, cq: Val)
    requires p != 'N' && q != 'N'
    ensures Storable("ijLS", "N", [Op("Nj", co), Op("iNLS", x1)], [Op(['L', p], cp), Op(['S', q], cq)])
  {
  }

  lemma DirectFirstStorable(p: char, q: char, ao: Val, co: Val, cp: Val, cq: Val)
    requires p != 'M' && q != 'M'
    ensures Storable("iNLS", "M", [Op("Mi", co), Op("MNLS", ao)], [Op("Nj", co), Op(['L', p], cp), Op(['S', q], cq)])
  {
  }

  /** The branch through (iv|js) contracts lambda before nu. */
  lemma ExchangeBranch(n: Extents, co: Val, cv: Val, ao: Val, x1: Val, x2: Val, x3: Val, y: seq<int>)
    requires Quarter(n, "iNLS", "M", x1, Op("Mi", co), Op("MNLS", ao)) &&
             Quarter(n, "iNjS", "L", x2, Op("Lj", co), Op("iNLS", x1))
    requires Quarter(n, "iajS", "N", x3, Op("Na", cv), Op("iNjS", x2))
    ensures Ein(n, "iajb", "S", [Op("Sb", cv), Op("iajS", x3)])(y) == Ovov(n, co, cv, ao)(y)
  {
    hide Over, Term, Bind, Quarter, Storable, SameLabels;
    ExchangeLastStorable(cv, x2);
    ExchangeMiddleStorable(co, cv, x1);
    ExchangeFirstStorable(co, cv, ao);
    Chain(n, "iajb", "M", "L", "N", "S", Op("Mi", co), Op("Lj", co), Op("Na", cv), Op("Sb", cv), Op("MNLS", ao),
          "iNLS", x1, "iNjS", x2, "iajS", x3, y);
    assert "S" + "N" + "L" + "M" == "SNLM";
    AoLabels();
    SwapMiddle(n, "SNLM", Bind("iajb", y), Op("MNLS", ao), Op("Mi", co), Op("Lj", co), Op("Na", cv), Op("Sb", cv));
    FiveOperands(n, "SNLM", "MNLS", Bind("iajb", y), Op("MNLS", ao), Op("Mi", co), Op("Na", cv), Op("Lj", co),
                 Op("Sb", cv));
  }

  lemma ExchangeLastStorable(cv: Val, x2: Val)
    ensures Storable("iajS", "N", [Op("Na", cv), Op("iNjS", x2)], [Op("Sb", cv)])
  {
  }

  lemma ExchangeMiddleStorable(co: Val, cv: Val, x1: Val)
    ensures Storable("iNjS", "L", [Op("Lj", co), Op("iNLS", x1)], [Op("Na", cv), Op("Sb", cv)])
  {
  }

  lemma ExchangeFirstStorable(co: Val, cv: Val, ao: Val)
    ensures Storable("iNLS", "M", [Op("Mi", co), Op("MNLS", ao)], [Op("Lj", co), Op("Na", cv), Op("Sb", cv)])
  {
  }

  lemma SwapMiddle(n: Extents, s: string, e: Env, a: Operand, b: Operand, c: Operand, d: Operand, f: Operand)
    ensures Over(n, s, e, [a, b, c, d, f]) == Over(n, s, e, [a, b, d, c, f])
  {
    hide Over, Term;
    forall g
      ensures Term(g, [a, b, c, d, f]) == Term(g, [a, b, d, c, f])
    {
      assert [a, b, c, d, f] == [a, b] + [c, d, f] && [a, b, d, c, f] == [a, b] + [d, c, f];
      TermSplits(g, [a, b], [c, d, f]);
      TermSplits(g, [a, b], [d, c, f]);
      Term3(g, c, d, f);
      Term3(g, d, c, f);
    }
    OverDependsOnTerms(n, s, e, [a, b, c, d, f], [a, b, d, c, f]);
  }
}
