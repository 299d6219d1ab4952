/** What a contraction path may change: the order of the summed labels never matters, and a
    product may be contracted into a stored intermediate first.  Every rewrite between a
    direct einsum and a chain of two-operand ones is an instance. */
module Contractions {
  import opened Sums
  import opened Einsum

  /** Two one-label contractions whose terms agree. */
  lemma OneLabel(n: Extents, c: char, e: Env, e': Env, f: seq<Operand>, g: seq<Operand>)
    requires forall q :: Term(Put(e, c, q), f) == Term(Put(e', c, q), g)
    ensures Over(n, [c], e, f) == Over(n, [c], e', g)
  {
    hide Term;
    assert [c][1..] == "";
    forall q
      ensures Fix(n, [c], e, f)(q) == 1.0 * Fix(n, [c], e', g)(q)
    {
      assert Over(n, "", Put(e, c, q), f) == Term(Put(e, c, q), f) &&
             Over(n, "", Put(e', c, q), g) == Term(Put(e', c, q), g);
    }
    SumScale(0, n(c), 1.0, Fix(n, [c], e, f), Fix(n, [c], e', g));
  }

  // ---- the order of summation -----------------------------------------------------------

  function Cell(n: Extents, c: char, d: char, post: string, env: Env, ops: seq<Operand>): (int, int) -> real {
    (k, l) => Over(n, post, Put(Put(env, c, k), d, l), ops)
  }

  lemma OverIsSum(n: Extents, c: char, post: string, e: Env, ops: seq<Operand>, g: int -> real)
    requires forall k :: g(k) == Over(n, post, Put(e, c, k), ops)
    ensures Over(n, [c] + post, e, ops) == Sum(0, n(c), g)
  {
    hide Over, Fix, Sum, Put;
    var s := [c] + post;
    assert s[1..] == post;
    forall k
      ensures Fix(n, s, e, ops)(k) == 1.0 * g(k)
    {
      FixAt(n, s, e, ops, k);
    }
    SumScale(0, n(c), 1.0, Fix(n, s, e, ops), g);
    OverSome(n, s, e, ops);
  }

  lemma TwoLabels(n: Extents, c: char, d: char, post: string, env: Env, ops: seq<Operand>)
    ensures Over(n, [c, d] + post, env, ops) == Sum2(0, n(c), 0, n(d), Cell(n, c, d, post, env, ops))
  {
    hide Over, Put, Sum;
    var f := Cell(n, c, d, post, env, ops);
    forall k
      ensures Row(0, n(d), f)(k) == Over(n, [d] + post, Put(env, c, k), ops)
    {
      OverIsSum(n, d, post, Put(env, c, k), ops, At(f, k));
    }
    OverIsSum(n, c, [d] + post, env, ops, Row(0, n(d), f));
    assert [c, d] + post == [c] + ([d] + post);
  }

  function Cell3(n: Extents, s: string, post: string, env: Env, ops: seq<Operand>): Triple
    requires |s| == 3
  {
    (i, j, k) => Over(n, post, Put(Put(Put(env, s[0], i), s[1], j), s[2], k), ops)
  }

  lemma ThirdLabel(n: Extents, s: string, post: string, env: Env, ops: seq<Operand>, i: int, j: int)
    requires |s| == 3
    ensures Over(n, [s[2]] + post, Put(Put(env, s[0], i), s[1], j), ops)
         == Sum(0, n(s[2]), Line(Cell3(n, s, post, env, ops), i, j))
  {
    hide Over, Put, Sum;
    OverIsSum(n, s[2], post, Put(Put(env, s[0], i), s[1], j), ops, Line(Cell3(n, s, post, env, ops), i, j));
  }

  /** Three labels of one extent are a sum over a cube. */
  lemma ThreeLabels(n: Extents, s: string, post: string, env: Env, ops: seq<Operand>)
    requires |s| == 3 && n(s[0]) == n(s[1]) == n(s[2])
    ensures Over(n, s + post, env, ops) == Sum3(0, n(s[0]), Cell3(n, s, post, env, ops))
  {
    hide Over, Sum, Sum2;
    var hi := n(s[0]);
    var f := Cell3(n, s, post, env, ops);
    var g := Cell(n, s[0], s[1], [s[2]] + post, env, ops);
    assert s + post == [s[0], s[1]] + ([s[2]] + post);
    TwoLabels(n, s[0], s[1], [s[2]] + post, env, ops);
    forall i, j
      ensures g(i, j) == 1.0 * Inner(0, hi, f)(i, j)
    {
      ThirdLabel(n, s, post, env, ops, i, j);
    }
    Sum2Scale(0, hi, 0, hi, 1.0, g, Inner(0, hi, f));
  }

  lemma SwapFirstTwo(n: Extents, c: char, d: char, post: string, env: Env, ops: seq<Operand>)
    requires c != d
    ensures Over(n, [c, d] + post, env, ops) == Over(n, [d, c] + post, env, ops)
  {
    hide Over, Sum2;
    var f, g := Cell(n, c, d, post, env, ops), Cell(n, d, c, post, env, ops);
    TwoLabels(n, c, d, post, env, ops);
    TwoLabels(n, d, c, post, env, ops);
    Sum2Swap(0, n(c), 0, n(d), f);
    forall l, k
      ensures g(l, k) == 1.0 * Flip(f)(l, k)
    {
      assert Put(Put(env, d, l), c, k) == Put(Put(env, c, k), d, l);
    }
    Sum2Scale(0, n(d), 0, n(c), 1.0, g, Flip(f));
  }

  /** Two summations that agree for every value of the first label. */
  lemma OverHead(n: Extents, c: char, s: string, s': string, env: Env, ops: seq<Operand>, ops': seq<Operand>)
    requires forall k :: Over(n, s, Put(env, c, k), ops) == Over(n, s', Put(env, c, k), ops')
    ensures Over(n, [c] + s, env, ops) == Over(n, [c] + s', env, ops')
  {
    hide Over, Fix, Sum, Put;
    assert ([c] + s)[1..] == s && ([c] + s')[1..] == s';
    forall k
      ensures Fix(n, [c] + s, env, ops)(k) == 1.0 * Fix(n, [c] + s', env, ops')(k)
    {
      FixAt(n, [c] + s, env, ops, k);
      FixAt(n, [c] + s', env, ops', k);
    }
    SumScale(0, n(c), 1.0, Fix(n, [c] + s, env, ops), Fix(n, [c] + s', env, ops'));
    OverSome(n, [c] + s, env, ops);
    OverSome(n, [c] + s', env, ops');
  }

  lemma {:induction false} MoveToFront(n: Extents, pre: string, c: char, post: string, env: Env, ops: seq<Operand>)
    requires c !in pre
    ensures Over(n, pre + [c] + post, env, ops) == Over(n, [c] + pre + post, env, ops)
    decreases |pre|
  {
    if |pre| == 0 {
      assert pre + [c] + post == [c] + pre + post;
    } else {
      var d, rest := pre[0], pre[1..];
      forall k
        ensures Over(n, rest + [c] + post, Put(env, d, k), ops) == Over(n, [c] + rest + post, Put(env, d, k), ops)
      {
        MoveToFront(n, rest, c, post, Put(env, d, k), ops);
      }
      OverHead(n, d, rest + [c] + post, [c] + rest + post, env, ops, ops);
      assert pre + [c] + post == [d] + (rest + [c] + post);
      assert [d] + ([c] + rest + post) == [d, c] + (rest + post);
      SwapFirstTwo(n, c, d, rest + post, env, ops);
      assert [c, d] + (rest + post) == [c] + pre + post;
    }
  }

  predicate SameLabels(s: string, s': string) {
    && |s| == |s'| && Distinct(s) && Distinct(s')
    && (forall k | 0 <= k < |s| :: s[k] in s') && (forall k | 0 <= k < |s'| :: s'[k] in s)
  }

  lemma FirstLabelOf(s: string, s': string) returns (pre: string, post: string)
    requires SameLabels(s, s') && |s'| > 0
    ensures s == pre + [s'[0]] + post && s'[0] !in pre && SameLabels(pre + post, s'[1..])
  {
    hide Distinct;
    assert s'[0] in s;
    var p :| 0 <= p < |s| && s[p] == s'[0];
    pre, post := s[..p], s[p + 1..];
    DistinctWithout(s, p);
    DistinctWithout(s', 0);
    assert s'[..0] + s'[1..] == s'[1..];
    forall k | 0 <= k < |pre + post|
      ensures (pre + post)[k] in s'[1..]
    {
      RestLabel(s, s', p, k);
    }
    forall k | 0 <= k < |s'[1..]|
      ensures s'[1..][k] in pre + post
    {
      RemainingLabel(s, s', p, k + 1);
    }
  }

  lemma DistinctWithout(s: string, p: nat)
    requires Distinct(s) && p < |s|
    ensures Distinct(s[..p] + s[p + 1..]) && s[p] !in s[..p]
  {
    assert forall k {:trigger (s[..p] + s[p + 1..])[k]} | 0 <= k < |s| - 1 :: (s[..p] + s[p + 1..])[k]
             == s[if k < p then k else k + 1];
  }

  lemma RestLabel(s: string, s': string, p: nat, k: nat)
    requires SameLabels(s, s') && p < |s| && |s'| > 0 && s[p] == s'[0] && k < |s| - 1
    ensures (s[..p] + s[p + 1..])[k] in s'[1..]
  {
    var j := if k < p then k else k + 1;
    assert (s[..p] + s[p + 1..])[k] == s[j] && s[j] in s' && s[j] != s[p];
    var q :| 0 <= q < |s'| && s'[q] == s[j];
    assert s'[1..][q - 1] == s[j];
  }

  lemma RemainingLabel(s: string, s': string, p: nat, k: nat)
    requires SameLabels(s, s') && p < |s| && |s'| > 0 && s[p] == s'[0] && 0 < k < |s'|
    ensures s'[k] in s[..p] + s[p + 1..]
  {
    assert s'[k] in s;
    var q :| 0 <= q < |s| && s[q] == s'[k];
    assert (s[..p] + s[p + 1..])[if q < p then q else q - 1] == s[q];
  }

  /** Summing the same labels in any order gives the same contraction. */
  lemma {:induction false} OrderOfLabels(n: Extents, s: string, s': string, env: Env, ops: seq<Operand>)
    requires SameLabels(s, s')
    ensures Over(n, s, env, ops) == Over(n, s', env, ops)
    decreases |s'|
  {
    hide Over, Distinct;
    if |s'| > 0 {
      var c := s'[0];
      var pre, post := FirstLabelOf(s, s');
      MoveToFront(n, pre, c, post, env, ops);
      forall k
        ensures Over(n, pre + post, Put(env, c, k), ops) == Over(n, s'[1..], Put(env, c, k), ops)
      {
        OrderOfLabels(n, pre + post, s'[1..], Put(env, c, k), ops);
      }
      OverHead(n, c, pre + post, s'[1..], env, ops, ops);
      assert [c] + pre + post == [c] + (pre + post) && [c] + s'[1..] == s';
    } else {
      assert s == s';
    }
  }

  // ---- stored intermediates -----------------------------------------------------------------

  ghost predicate Uses(ops: seq<Operand>, c: char) { exists o | o in ops :: c in o.idx }

  lemma {:induction false} TermSplits(env: Env, a: seq<Operand>, b: seq<Operand>)
    ensures Term(env, a + b) == Term(env, a) * Term(env, b)
    decreases |a|
  {
    if |a| == 0 {
      assert a + b == b;
    } else {
      assert (a + b)[1..] == a[1..] + b;
      TermSplits(env, a[1..], b);
      var u, v, w := a[0].val(Look(env, a[0].idx)), Term(env, a[1..]), Term(env, b);
      assert u * (v * w) == (u * v) * w;
    }
  }

  lemma {:induction false} TermAgrees(e: Env, e': Env, ops: seq<Operand>)
    requires forall c | Uses(ops, c) :: Get(e, c) == Get(e', c)
    ensures Term(e, ops) == Term(e', ops)
    decreases |ops|
  {
    if |ops| > 0 {
      var o := ops[0];
      forall p | 0 <= p < |o.idx|
        ensures Get(e, o.idx[p]) == Get(e', o.idx[p])
      {
        assert o in ops && o.idx[p] in o.idx;
        assert Uses(ops, o.idx[p]);
      }
      assert Look(e, o.idx) == Look(e', o.idx);
      forall c | Uses(ops[1..], c)
        ensures Get(e, c) == Get(e', c)
      {
        assert Uses(ops, c);
      }
      TermAgrees(e, e', ops[1..]);
    }
  }

  /** A contraction reads its environment only at the labels that occur in the operands and are not summed. */
  lemma {:induction false} OverAgrees(n: Extents, s: string, e: Env, e': Env, ops: seq<Operand>)
    requires forall c | Uses(ops, c) && c !in s :: Get(e, c) == Get(e', c)
    ensures Over(n, s, e, ops) == Over(n, s, e', ops)
    decreases |s|
  {
    hide Over, Fix, Term;
    if |s| == 0 {
      OverNone(n, s, e, ops);
      OverNone(n, s, e', ops);
      TermAgrees(e, e', ops);
    } else {
      forall k
        ensures Fix(n, s, e, ops)(k) == 1.0 * Fix(n, s, e', ops)(k)
      {
        FixAt(n, s, e, ops, k);
        FixAt(n, s, e', ops, k);
        OverAgrees(n, s[1..], Put(e, s[0], k), Put(e', s[0], k), ops);
      }
      OverStep(n, s, 1.0, e, e', ops, ops);
    }
  }

  /** Operands that mention no summed label factor out. */
  lemma {:induction false} OverFactors(n: Extents, s: string, e: Env, ops: seq<Operand>, rest: seq<Operand>)
    requires forall c | c in s :: !Uses(rest, c)
    ensures Over(n, s, e, ops + rest) == Term(e, rest) * Over(n, s, e, ops)
    decreases |s|
  {
    hide Over, Fix, Term;
    if |s| == 0 {
      OverNone(n, s, e, ops);
      OverNone(n, s, e, ops + rest);
      TermSplits(e, ops, rest);
    } else {
      var c := s[0];
      forall k
        ensures Fix(n, s, e, ops + rest)(k) == Term(e, rest) * Fix(n, s, e, ops)(k)
      {
        FixAt(n, s, e, ops + rest, k);
        FixAt(n, s, e, ops, k);
        OverFactors(n, s[1..], Put(e, c, k), ops, rest);
        TermAgrees(e, Put(e, c, k), rest);
      }
      OverStep(n, s, Term(e, rest), e, e, ops + rest, ops);
    }
  }

  /** The labels of a stored intermediate are exactly what its operands leave open, and the labels
      it sums do not occur in the other operands. */
  ghost predicate Storable(idx: string, inner: string, ops: seq<Operand>, rest: seq<Operand>) {
    && Distinct(idx)
    && (forall o, c | o in ops && c in o.idx :: c in idx || c in inner)
    && (forall c | c in inner :: c !in idx)
    && (forall o, c | o in rest && c in o.idx :: c !in inner)
  }

  lemma RestDisjoint(inner: string, rest: seq<Operand>)
    requires forall o, c | o in rest && c in o.idx :: c !in inner
    ensures forall c | c in inner :: !Uses(rest, c)
  {
  }

  lemma BoundAgain(idx: string, inner: string, ops: seq<Operand>, e: Env)
    requires Distinct(idx) && forall o, c | o in ops && c in o.idx :: c in idx || c in inner
    ensures forall c | Uses(ops, c) && c !in inner :: Get(Bind(idx, Look(e, idx)), c) == Get(e, c)
  {
    var y := Look(e, idx);
    var e' := Bind(idx, y);
    forall c | Uses(ops, c) && c !in inner
      ensures Get(e', c) == Get(e, c)
    {
      var p :| 0 <= p < |idx| && idx[p] == c;
      assert Get(e', idx[p]) == y[p];
    }
  }

  /** The element of the intermediate that an environment selects is the inner contraction in that environment. */
  lemma StoredElement(n: Extents, idx: string, inner: string, x: Val, ops: seq<Operand>, e: Env)
    requires Distinct(idx) && forall o, c | o in ops && c in o.idx :: c in idx || c in inner
    requires forall y | |y| == |idx| :: x(y) == Ein(n, idx, inner, ops)(y)
    ensures x(Look(e, idx)) == Over(n, inner, e, ops)
  {
    hide Over, Bind;
    var y := Look(e, idx);
    BoundAgain(idx, inner, ops, e);
    OverAgrees(n, inner, Bind(idx, y), e, ops);
    assert x(y) == Ein(n, idx, inner, ops)(y);
  }

  lemma StoredTerm(n: Extents, idx: string, inner: string, x: Val, ops: seq<Operand>, rest: seq<Operand>, e: Env)
    requires Storable(idx, inner, ops, rest)
    requires forall y | |y| == |idx| :: x(y) == Ein(n, idx, inner, ops)(y)
    ensures Term(e, [Op(idx, x)] + rest) == Over(n, inner, e, ops + rest)
  {
    hide Over, Term, Bind, Ein;
    StoredElement(n, idx, inner, x, ops, e);
    RestDisjoint(inner, rest);
    OverFactors(n, inner, e, ops, rest);
    TermHead(e, Op(idx, x), rest);
  }

  lemma TermHead(e: Env, o: Operand, rest: seq<Operand>)
    ensures Term(e, [o] + rest) == o.val(Look(e, o.idx)) * Term(e, rest)
  {
    assert ([o] + rest)[1..] == rest;
  }

  /** Contracting a stored intermediate with other operands is the direct contraction of all of them. */
  lemma {:induction false} StoredIntermediate(n: Extents, outer: string, idx: string, inner: string, x: Val,
                                              ops: seq<Operand>, rest: seq<Operand>, e: Env)
    requires Storable(idx, inner, ops, rest)
    requires forall y | |y| == |idx| :: x(y) == Ein(n, idx, inner, ops)(y)
    ensures Over(n, outer, e, [Op(idx, x)] + rest) == Over(n, outer + inner, e, ops + rest)
    decreases |outer|
  {
    if |outer| == 0 {
      assert outer + inner == inner;
      StoredTerm(n, idx, inner, x, ops, rest, e);
    } else {
      var c := outer[0];
      forall k
        ensures Over(n, outer[1..], Put(e, c, k), [Op(idx, x)] + rest)
                  == Over(n, outer[1..] + inner, Put(e, c, k), ops + rest)
      {
        StoredIntermediate(n, outer[1..], idx, inner, x, ops, rest, Put(e, c, k));
      }
      OverHead(n, c, outer[1..], outer[1..] + inner, e, [Op(idx, x)] + rest, ops + rest);
      assert [c] + outer[1..] == outer && [c] + (outer[1..] + inner) == outer + inner;
    }
  }

  /** The operands of a two-operand einsum may be written in either order. */
  lemma OperandsCommute(n: Extents, out: string, summed: string, a: Operand, b: Operand, x: seq<int>)
    ensures Ein(n, out, summed, [a, b])(x) == Ein(n, out, summed, [b, a])(x)
  {
    forall e
      ensures Term(e, [a, b]) == Term(e, [b, a])
    {
      Term2(e, a, b);
      Term2(e, b, a);
    }
    OverDependsOnTerms(n, summed, Bind(out, x), [a, b], [b, a]);
  }

  // ---- slices -----------------------------------------------------------------------------------

  /** The view that fixes consecutive axes, from axis p on, at the values ks: t[ks, :, :] is View(t, 0, ks). */
  function View(a: Val, p: nat, ks: seq<int>): Val {
    y => if p <= |y| then a(y[..p] + ks + y[p..]) else 0.0
  }

  /** The full tensor's specification is the view's with the fixed labels inserted. */
  predicate ViewOf(small: string, big: string, p: nat, ks: seq<int>, labels: string, fixed: Env) {
    && p <= |small| && |labels| == |ks| && big == small[..p] + labels + small[p..]
    && (forall q | 0 <= q < |labels| :: labels[q] in fixed && fixed[labels[q]] == ks[q])
    && (forall q | 0 <= q < |small| :: small[q] !in fixed)
  }

  lemma ViewReads(a: Val, small: string, big: string, p: nat, ks: seq<int>, labels: string, e: Env, fixed: Env)
    requires ViewOf(small, big, p, ks, labels, fixed)
    ensures View(a, p, ks)(Look(e, small)) == a(Look(e + fixed, big))
  {
    assert Look(e, small)[..p] + ks + Look(e, small)[p..] == Look(e + fixed, big);
  }

  /** Contracting views is contracting the tensors with the fixed labels bound beforehand. */
  lemma {:induction false} OverViews(n: Extents, s: string, e: Env, fixed: Env, views: seq<Operand>, ops: seq<Operand>)
    requires forall q | 0 <= q < |s| :: s[q] !in fixed
    requires forall e' :: Term(e', views) == Term(e' + fixed, ops)
    ensures Over(n, s, e, views) == Over(n, s, e + fixed, ops)
    decreases |s|
  {
    hide Over, Fix, Term;
    if |s| > 0 {
      forall k
        ensures Fix(n, s, e, views)(k) == 1.0 * Fix(n, s, e + fixed, ops)(k)
      {
        FixAt(n, s, e, views, k);
        FixAt(n, s, e + fixed, ops, k);
        OverViews(n, s[1..], Put(e, s[0], k), fixed, views, ops);
        assert Put(e, s[0], k) + fixed == Put(e + fixed, s[0], k);
      }
      OverStep(n, s, 1.0, e, e + fixed, views, ops);
    } else {
      OverNone(n, s, e, views);
      OverNone(n, s, e + fixed, ops);
    }
  }

  /** Binding some labels beforehand and the others through the view is binding them all. */
  lemma BindFixed(labels: string, ks: seq<int>, small: string, y: seq<int>, fixed: Env)
    requires Distinct(labels + small) && |labels| == |ks| && |small| == |y|
    requires forall q | 0 <= q < |labels| :: labels[q] in fixed && fixed[labels[q]] == ks[q]
    requires forall c | c in fixed :: c in labels
    ensures forall c :: Get(Bind(small, y) + fixed, c) == Get(Bind(labels + small, ks + y), c)
  {
    hide Bind;
    forall c
      ensures Get(Bind(small, y) + fixed, c) == Get(Bind(labels + small, ks + y), c)
    {
      if c in labels {
        LabelFixed(labels, ks, small, y, fixed, c);
      } else {
        LabelFree(labels, ks, small, y, fixed, c);
      }
    }
  }

  lemma LabelFixed(labels: string, ks: seq<int>, small: string, y: seq<int>, fixed: Env, c: char)
    requires Distinct(labels + small) && |labels| == |ks| && |small| == |y| && c in labels
    requires forall q | 0 <= q < |labels| :: labels[q] in fixed && fixed[labels[q]] == ks[q]
    ensures Get(Bind(small, y) + fixed, c) == Get(Bind(labels + small, ks + y), c)
  {
    hide Bind, Distinct;
    var q :| 0 <= q < |labels| && labels[q] == c;
    assert (labels + small)[q] == c && (ks + y)[q] == ks[q];
  }

  lemma LabelFree(labels: string, ks: seq<int>, small: string, y: seq<int>, fixed: Env, c: char)
    requires Distinct(labels + small) && |labels| == |ks| && |small| == |y| && c !in labels
    requires forall c | c in fixed :: c in labels
    ensures Get(Bind(small, y) + fixed, c) == Get(Bind(labels + small, ks + y), c)
  {
    hide Bind, Distinct;
    if c in small {
      var q :| 0 <= q < |small| && small[q] == c;
      DistinctTail(labels, small);
      assert (labels + small)[|labels| + q] == c && (ks + y)[|labels| + q] == y[q];
      BoundAt(small, y, q);
      BoundAt(labels + small, ks + y, |labels| + q);
    } else {
      Unbound(small, y, c);
      Unbound(labels + small, ks + y, c);
    }
    NotFixed(labels, fixed, Bind(small, y), c);
  }

  lemma BoundAt(out: string, x: seq<int>, q: nat)
    requires Distinct(out) && |out| == |x| && q < |out|
    ensures Get(Bind(out, x), out[q]) == x[q]
  {
    hide Distinct;
  }

  lemma Unbound(out: string, x: seq<int>, c: char)
    requires c !in out
    ensures Get(Bind(out, x), c) == 0
  {
    hide Bind, Distinct;
  }

  lemma NotFixed(labels: string, fixed: Env, e: Env, c: char)
    requires c !in labels && forall d | d in fixed :: d in labels
    ensures Get(e + fixed, c) == Get(e, c)
  {
  }

  lemma DistinctTail(labels: string, small: string)
    requires Distinct(labels + small)
    ensures Distinct(small)
  {
    assert forall p | 0 <= p < |small| :: small[p] == (labels + small)[|labels| + p];
  }
}
