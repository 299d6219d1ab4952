/** Tensors and the element-wise meaning of the tensor operations that the captured
    graphs are made of: einsum, permute, axpby, direct division and dot.  Every index
    label of a specification is one character.  A tensor is the function from its
    multi-index to its element, so a buffer of any rank and shape has the same type. */
module Einsum {
  import opened Sums

  type Val = seq<int> -> real
  type Env = map<char, int>

  /** The extent of each index label: labels of one kind (occupied, virtual, ...) share it. */
  type Extents = char -> int

  datatype Operand = Op(idx: string, val: Val)

  predicate Distinct(s: string) { forall p, q | 0 <= p < q < |s| :: s[p] != s[q] }

  function Get(env: Env, c: char): int { if c in env then env[c] else 0 }

  function Put(env: Env, c: char, k: int): Env { env[c := k] }

  /** The multi-index that a label string denotes. */
  function Look(env: Env, idx: string): (r: seq<int>)
    ensures |r| == |idx|
    ensures forall p | 0 <= p < |idx| :: r[p] == Get(env, idx[p])
  {
    seq(|idx|, p requires 0 <= p < |idx| => Get(env, idx[p]))
  }

  /** Binds the labels of an output specification to a multi-index. */
  function Bind(out: string, x: seq<int>): (env: Env)
    ensures Distinct(out) && |out| == |x| ==> forall p | 0 <= p < |out| :: Get(env, out[p]) == x[p]
    ensures forall c :: c in env ==> c in out
  {
    if |out| == 0 || |x| == 0 then map[]
    else
      var rest := Bind(out[1..], x[1..]);
      assert Distinct(out) ==> Distinct(out[1..]);
      assert forall p | 1 <= p < |out| :: out[p] == out[1..][p - 1];
      rest[out[0] := x[0]]
  }

  lemma Bind2(out: string, x: seq<int>)
    requires |out| == 2 == |x| && Distinct(out)
    ensures Get(Bind(out, x), out[0]) == x[0] && Get(Bind(out, x), out[1]) == x[1]
  {
  }

  /** Four distinct labels bound to a multi-index. */
  lemma Bind4(out: string, x: seq<int>)
    requires |out| == 4 == |x| && Distinct(out)
    ensures var e := Bind(out, x);
            Get(e, out[0]) == x[0] && Get(e, out[1]) == x[1] && Get(e, out[2]) == x[2] && Get(e, out[3]) == x[3]
  {
  }

  // ---- einsum ---------------------------------------------------------------------------

  function Term(env: Env, ops: seq<Operand>): real {
    if |ops| == 0 then 1.0 else ops[0].val(Look(env, ops[0].idx)) * Term(env, ops[1..])
  }

  /** The sum of the operands' product over every value of the labels in `summed`. */
  function Over(n: Extents, summed: string, env: Env, ops: seq<Operand>): real
    decreases |summed|
  {
    if |summed| == 0 then Term(env, ops) else Sum(0, n(summed[0]), Fix(n, summed, env, ops))
  }

  function Fix(n: Extents, summed: string, env: Env, ops: seq<Operand>): int -> real
    requires |summed| > 0
    decreases |summed|, 0
  {
    k => Over(n, summed[1..], Put(env, summed[0], k), ops)
  }

  /** einsum: `summed` are the labels of the operands that do not occur in `out`. */
  function Ein(n: Extents, out: string, summed: string, ops: seq<Operand>): Val {
    x => Over(n, summed, Bind(out, x), ops)
  }

  /** The full contraction of two tensors of the same shape. */
  function Dot(n: Extents, labels: string, a: Val, b: Val): real {
    Over(n, labels, map[], [Op(labels, a), Op(labels, b)])
  }

  // ---- the operations that update a buffer: each returns its new contents -----------------

  /** dst <- cpf * dst + pf * einsum */
  function EinInto(n: Extents, out: string, summed: string, ops: seq<Operand>, pf: real, cpf: real, dst: Val): Val {
    x => cpf * dst(x) + pf * Ein(n, out, summed, ops)(x)
  }

  /** y <- alpha * x + beta * y */
  function Axpby(alpha: real, x: Val, beta: real, y: Val): Val {
    i => alpha * x(i) + beta * y(i)
  }

  /** dst[to] <- cpf * dst[to] + apf * src[from], as in "to <- from" */
  function Permute(to: string, from: string, dst: Val, src: Val, cpf: real, apf: real): Val {
    x => cpf * dst(x) + apf * src(Look(Bind(to, x), from))
  }

  /** A quotient of reals.  Floating point gives an infinity or NaN for a zero denominator; this gives zero. */
  function Div(a: real, d: real): real { if d == 0.0 then 0.0 else a / d }

  /** Times the denominator it is the numerator. */
  lemma DivTimes(a: real, d: real)
    ensures d != 0.0 ==> Div(a, d) * d == a && d * Div(a, d) == a
    ensures d == 0.0 ==> Div(a, d) == 0.0
  {
  }

  function Divide(a: Val, d: Val): Val { x => Div(a(x), d(x)) }

  /** dst <- alpha * a / d + beta * dst */
  function DirectDivision(alpha: real, a: Val, d: Val, beta: real, dst: Val): Val {
    x => alpha * Div(a(x), d(x)) + beta * dst(x)
  }

  // ---- array expressions --------------------------------------------------------------------

  function Plus(a: Val, b: Val): Val { x => a(x) + b(x) }
  function Minus(a: Val, b: Val): Val { x => a(x) - b(x) }
  function Times(c: real, a: Val): Val { x => c * a(x) }
  function Product(a: Val, b: Val): Val { x => a(x) * b(x) }

  function Exchange(x: seq<int>, p: nat, q: nat): (y: seq<int>)
    ensures |y| == |x|
  {
    if p < |x| && q < |x| then x[p := x[q]][q := x[p]] else x
  }

  /** a.transpose with two axes exchanged. */
  function SwapAxes(a: Val, p: nat, q: nat): Val { x => a(Exchange(x, p, q)) }

  /** The antisymmetrizer x - x.transpose of two axes. */
  function P(a: Val, p: nat, q: nat): Val { Minus(a, SwapAxes(a, p, q)) }

  // ---- element-wise equality and antisymmetry -----------------------------------------------

  ghost predicate SameOn(rank: nat, a: Val, b: Val) {
    forall x | |x| == rank :: a(x) == b(x)
  }

  ghost predicate Antisym(rank: nat, a: Val, p: nat, q: nat) {
    forall x {:trigger a(Exchange(x, p, q))} | |x| == rank :: a(Exchange(x, p, q)) == -a(x)
  }

  lemma OverSome(n: Extents, s: string, env: Env, ops: seq<Operand>)
    requires |s| > 0
    ensures Over(n, s, env, ops) == Sum(0, n(s[0]), Fix(n, s, env, ops))
  {
  }

  lemma FixAt(n: Extents, s: string, env: Env, ops: seq<Operand>, k: int)
    requires |s| > 0
    ensures Fix(n, s, env, ops)(k) == Over(n, s[1..], Put(env, s[0], k), ops)
  {
  }

  /** Contractions that are proportional for every value of the first label are proportional. */
  lemma OverStep(n: Extents, s: string, c: real, e: Env, e': Env, f: seq<Operand>, g: seq<Operand>)
    requires |s| > 0 && forall k :: Fix(n, s, e, f)(k) == c * Fix(n, s, e', g)(k)
    ensures Over(n, s, e, f) == c * Over(n, s, e', g)
  {
    hide Over, Fix, Sum, Put;
    SumScale(0, n(s[0]), c, Fix(n, s, e, f), Fix(n, s, e', g));
    OverSome(n, s, e, f);
    OverSome(n, s, e', g);
  }

  /** einsum depends on its operands only through their elements. */
  lemma {:induction false} OverDependsOnTerms(n: Extents, summed: string, env: Env, ops: seq<Operand>,
                                              ops': seq<Operand>)
    requires forall e :: Term(e, ops) == Term(e, ops')
    ensures Over(n, summed, env, ops) == Over(n, summed, env, ops')
    decreases |summed|
  {
    hide Over, Term, Fix;
    if |summed| > 0 {
      forall k
        ensures Fix(n, summed, env, ops)(k) == 1.0 * Fix(n, summed, env, ops')(k)
      {
        FixAt(n, summed, env, ops, k);
        FixAt(n, summed, env, ops', k);
        OverDependsOnTerms(n, summed[1..], Put(env, summed[0], k), ops, ops');
      }
      OverStep(n, summed, 1.0, env, env, ops, ops');
    } else {
      OverNone(n, summed, env, ops);
      OverNone(n, summed, env, ops');
    }
  }

  lemma OverNone(n: Extents, s: string, env: Env, ops: seq<Operand>)
    requires |s| == 0
    ensures Over(n, s, env, ops) == Term(env, ops)
  {
  }

  lemma Term2(env: Env, a: Operand, b: Operand)
    ensures Term(env, [a, b]) == a.val(Look(env, a.idx)) * b.val(Look(env, b.idx))
  {
    assert [a, b][1..] == [b];
    assert [b][1..] == [];
    assert Term(env, [b]) == b.val(Look(env, b.idx)) * Term(env, []);
  }

  lemma Term3(env: Env, a: Operand, b: Operand, c: Operand)
    ensures Term(env, [a, b, c]) == a.val(Look(env, a.idx)) * b.val(Look(env, b.idx)) * c.val(Look(env, c.idx))
  {
    assert [a, b, c][1..] == [b, c];
    Term2(env, b, c);
  }

  lemma EinSame(n: Extents, out: string, summed: string, ia: string, a: Val, a': Val, ib: string, b: Val, b': Val)
    requires SameOn(|ia|, a, a') && SameOn(|ib|, b, b')
    ensures forall x :: Ein(n, out, summed, [Op(ia, a), Op(ib, b)])(x)
              == Ein(n, out, summed, [Op(ia, a'), Op(ib, b')])(x)
  {
    forall e
      ensures Term(e, [Op(ia, a), Op(ib, b)]) == Term(e, [Op(ia, a'), Op(ib, b')])
    {
      Term2(e, Op(ia, a), Op(ib, b));
      Term2(e, Op(ia, a'), Op(ib, b'));
    }
    forall x
      ensures Ein(n, out, summed, [Op(ia, a), Op(ib, b)])(x) == Ein(n, out, summed, [Op(ia, a'), Op(ib, b')])(x)
    {
      OverDependsOnTerms(n, summed, Bind(out, x), [Op(ia, a), Op(ib, b)], [Op(ia, a'), Op(ib, b')]);
    }
  }

  // ---- an einsum inherits the antisymmetry of one operand ------------------------------------

  function Swap(env: Env, c: char, d: char): Env { env[c := Get(env, d)][d := Get(env, c)] }

  lemma {:induction false} OverSwapped(n: Extents, summed: string, env: Env, env': Env, ops: seq<Operand>, c: char,
                                       d: char)
    requires c != d && c !in summed && d !in summed
    requires forall e :: Term(Swap(e, c, d), ops) == -Term(e, ops)
    requires forall k :: Get(env', k) == Get(Swap(env, c, d), k)
    ensures Over(n, summed, env', ops) == -Over(n, summed, env, ops)
    decreases |summed|
  {
    hide Over, Fix, Term, Get, Put, Swap;
    if |summed| == 0 {
      OverNone(n, summed, env, ops);
      OverNone(n, summed, env', ops);
      TermOfEqualEnvs(env', Swap(env, c, d), ops);
    } else {
      var l := summed[0];
      forall k
        ensures Fix(n, summed, env', ops)(k) == -1.0 * Fix(n, summed, env, ops)(k)
      {
        FixAt(n, summed, env', ops, k);
        FixAt(n, summed, env, ops, k);
        SwapPut(env, env', l, k, c, d);
        OverSwapped(n, summed[1..], Put(env, l, k), Put(env', l, k), ops, c, d);
      }
      OverStep(n, summed, -1.0, env', env, ops, ops);
    }
  }

  lemma SwapPut(env: Env, env': Env, l: char, k: int, c: char, d: char)
    requires l != c && l != d && forall j :: Get(env', j) == Get(Swap(env, c, d), j)
    ensures forall j :: Get(Put(env', l, k), j) == Get(Swap(Put(env, l, k), c, d), j)
  {
    forall j
      ensures Get(Put(env', l, k), j) == Get(Swap(Put(env, l, k), c, d), j)
    {
      assert Get(env', j) == Get(Swap(env, c, d), j);
    }
  }

  lemma {:induction false} TermOfEqualEnvs(env: Env, env': Env, ops: seq<Operand>)
    requires forall k :: Get(env', k) == Get(env, k)
    ensures Term(env, ops) == Term(env', ops)
    decreases |ops|
  {
    if |ops| > 0 {
      assert Look(env, ops[0].idx) == Look(env', ops[0].idx);
      TermOfEqualEnvs(env, env', ops[1..]);
    }
  }

  /** The operand carries the two labels exactly at its axes p and q. */
  predicate Carries(o: Operand, c: char, d: char, p: nat, q: nat) {
    && p < |o.idx| && q < |o.idx| && p != q
    && o.idx[p] == c && o.idx[q] == d
    && forall k | 0 <= k < |o.idx| && k != p && k != q :: o.idx[k] != c && o.idx[k] != d
  }

  lemma CarrierChangesSign(e: Env, o: Operand, c: char, d: char, p: nat, q: nat)
    requires c != d && Carries(o, c, d, p, q) && Antisym(|o.idx|, o.val, p, q)
    ensures o.val(Look(Swap(e, c, d), o.idx)) == -o.val(Look(e, o.idx))
  {
    assert Look(Swap(e, c, d), o.idx) == Exchange(Look(e, o.idx), p, q);
  }

  lemma BystanderUnchanged(e: Env, o: Operand, c: char, d: char)
    requires c !in o.idx && d !in o.idx
    ensures Look(Swap(e, c, d), o.idx) == Look(e, o.idx)
  {
  }

  /** Exactly one of two operands carries the labels c and d, at axes in which it is antisymmetric. */
  ghost predicate OneCarrier(a: Operand, b: Operand, c: char, d: char, r: nat, s: nat) {
    Carries(a, c, d, r, s) && Antisym(|a.idx|, a.val, r, s) && c !in b.idx && d !in b.idx
  }

  lemma TermChangesSign(e: Env, a: Operand, b: Operand, c: char, d: char, r: nat, s: nat)
    requires c != d && (OneCarrier(a, b, c, d, r, s) || OneCarrier(b, a, c, d, r, s))
    ensures Term(Swap(e, c, d), [a, b]) == -Term(e, [a, b])
  {
    var e' := Swap(e, c, d);
    Term2(e, a, b);
    Term2(e', a, b);
    var u, v := a.val(Look(e, a.idx)), b.val(Look(e, b.idx));
    var u', v' := a.val(Look(e', a.idx)), b.val(Look(e', b.idx));
    assert (u' == -u && v' == v) || (u' == u && v' == -v) by {
      if OneCarrier(a, b, c, d, r, s) {
        CarrierChangesSign(e, a, c, d, r, s);
        BystanderUnchanged(e, b, c, d);
      } else {
        CarrierChangesSign(e, b, c, d, r, s);
        BystanderUnchanged(e, a, c, d);
      }
    }
  }

  /** If exactly one operand of a two-operand einsum mentions the output labels at axes p
      and q, at two axes in which it is antisymmetric, then so is the result in p and q. */
  lemma EinInheritsAntisymmetry(n: Extents, out: string, summed: string, a: Operand, b: Operand,
                                p: nat, q: nat, r: nat, s: nat)
    requires Distinct(out) && p < |out| && q < |out| && p != q
    requires out[p] !in summed && out[q] !in summed
    requires OneCarrier(a, b, out[p], out[q], r, s) || OneCarrier(b, a, out[p], out[q], r, s)
    ensures Antisym(|out|, Ein(n, out, summed, [a, b]), p, q)
  {
    var c, d := out[p], out[q];
    assert c != d;
    forall e
      ensures Term(Swap(e, c, d), [a, b]) == -Term(e, [a, b])
    {
      TermChangesSign(e, a, b, c, d, r, s);
    }
    forall x: seq<int> | |x| == |out|
      ensures Ein(n, out, summed, [a, b])(Exchange(x, p, q)) == -Ein(n, out, summed, [a, b])(x)
    {
      BindExchanged(out, x, p, q);
      OverSwapped(n, summed, Bind(out, x), Bind(out, Exchange(x, p, q)), [a, b], c, d);
    }
  }

  lemma BindExchanged(out: string, x: seq<int>, p: nat, q: nat)
    requires Distinct(out) && |x| == |out| && p < |out| && q < |out| && p != q
    ensures forall k :: Get(Bind(out, Exchange(x, p, q)), k) == Get(Swap(Bind(out, x), out[p], out[q]), k)
  {
    var y := Exchange(x, p, q);
    forall k
      ensures Get(Bind(out, y), k) == Get(Swap(Bind(out, x), out[p], out[q]), k)
    {
      if k in out {
        var r :| 0 <= r < |out| && out[r] == k;
        assert Get(Bind(out, x), out[r]) == x[r] && Get(Bind(out, y), out[r]) == y[r];
        assert Get(Bind(out, x), out[p]) == x[p] && Get(Bind(out, x), out[q]) == x[q];
      }
    }
  }

  predicate DiffersByExchange(to: string, from: string, p: nat, q: nat) {
    && Distinct(to) && |to| == |from| && p < q < |to|
    && from[p] == to[q] && from[q] == to[p]
    && forall k | 0 <= k < |to| && k != p && k != q :: from[k] == to[k]
  }

  lemma LookSelf(s: string, x: seq<int>)
    requires Distinct(s) && |s| == |x|
    ensures Look(Bind(s, x), s) == x
  {
    var e := Bind(s, x);
    assert forall p | 0 <= p < |s| :: Get(e, s[p]) == x[p];
  }

  /** Specifications that differ by one exchange of labels read across that exchange. */
  lemma LookExchanges(to: string, from: string, x: seq<int>, p: nat, q: nat)
    requires |x| == |to| && DiffersByExchange(to, from, p, q)
    ensures Look(Bind(to, x), from) == Exchange(x, p, q)
  {
    var e := Bind(to, x);
    forall k | 0 <= k < |x|
      ensures Look(e, from)[k] == Exchange(x, p, q)[k]
    {
      assert Get(e, to[k]) == x[k] && Get(e, to[p]) == x[p] && Get(e, to[q]) == x[q];
    }
  }

  /** Specifications that differ by two exchanges read across both. */
  lemma LookExchangesTwice(to: string, mid: string, from: string, x: seq<int>, p: nat, q: nat, r: nat, s: nat)
    requires |x| == |to| && DiffersByExchange(to, mid, p, q) && DiffersByExchange(mid, from, r, s)
    ensures Look(Bind(to, x), from) == Exchange(Exchange(x, p, q), r, s)
  {
    hide Bind;
    LookExchanges(to, mid, x, p, q);
    assert Look(Bind(to, x), from) == Exchange(Look(Bind(to, x), mid), r, s);
  }

  lemma PermuteExchanges(to: string, from: string, dst: Val, src: Val, cpf: real, apf: real, p: nat, q: nat)
    requires DiffersByExchange(to, from, p, q)
    ensures forall x {:trigger Permute(to, from, dst, src, cpf, apf)(x)} | |x| == |to| ::
              Permute(to, from, dst, src, cpf, apf)(x) == cpf * dst(x) + apf * SwapAxes(src, p, q)(x)
  {
    hide Bind;
    forall x: seq<int> | |x| == |to|
      ensures Permute(to, from, dst, src, cpf, apf)(x) == cpf * dst(x) + apf * SwapAxes(src, p, q)(x)
    {
      LookExchanges(to, from, x, p, q);
    }
  }

  // ---- antisymmetry of array expressions --------------------------------------------------------

  lemma AxesDisjoint(x: seq<int>, p: nat, q: nat, r: nat, s: nat)
    requires p < |x| && q < |x| && r < |x| && s < |x|
    requires p != r && p != s && q != r && q != s
    ensures Exchange(Exchange(x, p, q), r, s) == Exchange(Exchange(x, r, s), p, q)
  {
  }

  lemma ExchangeTwice(x: seq<int>, p: nat, q: nat)
    ensures Exchange(Exchange(x, p, q), p, q) == x
  {
  }

  /** P(pq) makes a tensor antisymmetric in p and q, and keeps an antisymmetry in two other axes. */
  lemma PAntisymmetrizes(rank: nat, a: Val, p: nat, q: nat)
    ensures Antisym(rank, P(a, p, q), p, q)
  {
    forall x: seq<int> | |x| == rank
      ensures P(a, p, q)(Exchange(x, p, q)) == -P(a, p, q)(x)
    {
      ExchangeTwice(x, p, q);
    }
  }

  lemma PKeepsAntisymmetry(rank: nat, a: Val, p: nat, q: nat, r: nat, s: nat)
    requires p < rank && q < rank && r < rank && s < rank
    requires p != r && p != s && q != r && q != s
    requires Antisym(rank, a, r, s)
    ensures Antisym(rank, P(a, p, q), r, s)
  {
    forall x: seq<int> | |x| == rank
      ensures P(a, p, q)(Exchange(x, r, s)) == -P(a, p, q)(x)
    {
      AxesDisjoint(x, r, s, p, q);
      assert a(Exchange(Exchange(x, p, q), r, s)) == -a(Exchange(x, p, q));
    }
  }
}
