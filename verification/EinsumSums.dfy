/** Elements of a two-operand einsum as nested sums of products of elements. */
module EinsumSums {
  import opened Sums
  import opened BoxSums
  import opened Einsum
  import opened Contractions

  // ---- environments ---------------------------------------------------------------------------

  /** The environment binds these labels to these indices. */
  ghost predicate Bound(env: Env, labels: string, x: seq<int>) {
    |labels| == |x| && forall p | 0 <= p < |labels| :: Get(env, labels[p]) == x[p]
  }

  lemma BindBinds(out: string, x: seq<int>)
    requires Distinct(out) && |out| == |x|
    ensures Bound(Bind(out, x), out, x)
  {
    hide Distinct;
  }

  /** Binding one label more. */
  lemma PutBinds(env: Env, labels: string, x: seq<int>, c: char, k: int)
    requires Bound(env, labels, x) && c !in labels
    ensures Bound(Put(env, c, k), labels + [c], x + [k])
  {
  }

  /** What an environment that binds a few labels holds, one by one. */
  lemma Reads(env: Env, labels: string, x: seq<int>)
    requires Bound(env, labels, x) && 2 <= |labels|
    ensures Get(env, labels[0]) == x[0] && Get(env, labels[1]) == x[1]
    ensures |labels| > 2 ==> Get(env, labels[2]) == x[2]
    ensures |labels| > 3 ==> Get(env, labels[3]) == x[3]
    ensures |labels| > 4 ==> Get(env, labels[4]) == x[4]
    ensures |labels| > 5 ==> Get(env, labels[5]) == x[5]
    ensures |labels| > 6 ==> Get(env, labels[6]) == x[6]
  {
  }

  lemma Look2(env: Env, idx: string, p: int, q: int)
    requires |idx| == 2 && Get(env, idx[0]) == p && Get(env, idx[1]) == q
    ensures Look(env, idx) == [p, q]
  {
  }

  lemma Look3(env: Env, idx: string, p: int, q: int, r: int)
    requires |idx| == 3 && Get(env, idx[0]) == p && Get(env, idx[1]) == q && Get(env, idx[2]) == r
    ensures Look(env, idx) == [p, q, r]
  {
  }

  lemma Look4(env: Env, idx: string, p: int, q: int, r: int, u: int)
    requires |idx| == 4
    requires Get(env, idx[0]) == p && Get(env, idx[1]) == q && Get(env, idx[2]) == r && Get(env, idx[3]) == u
    ensures Look(env, idx) == [p, q, r, u]
  {
  }

  // ---- einsums with no, one, two and three summed labels --------------------------------------

  /** The product of two operands' elements in an environment. */
  function Both(env: Env, a: Operand, b: Operand): real { a.val(Look(env, a.idx)) * b.val(Look(env, b.idx)) }

  lemma TermIsBoth(env: Env, a: Operand, b: Operand)
    ensures Term(env, [a, b]) == Both(env, a, b)
  {
    hide Term, Look;
    Term2(env, a, b);
  }

  lemma NoneSummed(n: Extents, out: string, x: seq<int>, a: Operand, b: Operand, y: real)
    requires Distinct(out) && |out| == |x|
    requires forall env | Bound(env, out, x) :: y == Both(env, a, b)
    ensures Ein(n, out, "", [a, b])(x) == y
  {
    hide Bind, Bound, Distinct, Both, Term;
    BindBinds(out, x);
    TermIsBoth(Bind(out, x), a, b);
  }

  lemma OneSummed(n: Extents, out: string, s: string, x: seq<int>, a: Operand, b: Operand, f: int -> real)
    requires |s| == 1 && Distinct(out + s) && |out| == |x|
    requires forall env, k | Bound(env, out + s, x + [k]) :: f(k) == Both(env, a, b)
    ensures Ein(n, out, s, [a, b])(x) == Sum(0, n(s[0]), f)
  {
    hide Bind, Bound, Over, Sum, Distinct, Both, Term;
    Apart(out, s);
    BindBinds(out, x);
    forall env, k | Bound(env, out + s, x + [k])
      ensures f(k) == Term(env, [a, b])
    {
      TermIsBoth(env, a, b);
    }
    OverOne(n, out, x, s, Bind(out, x), [a, b], f);
  }

  lemma TwoSummed(n: Extents, out: string, s: string, x: seq<int>, a: Operand, b: Operand, f: Pair)
    requires |s| == 2 && Distinct(out + s) && |out| == |x|
    requires forall env, k, l | Bound(env, out + s, x + [k, l]) :: f(k, l) == Both(env, a, b)
    ensures Ein(n, out, s, [a, b])(x) == Box2(n(s[0]), n(s[1]), f)
  {
    hide Bind, Bound, Over, Box2, Distinct, Both, Term;
    Apart(out, s);
    BindBinds(out, x);
    forall env, k, l | Bound(env, out + s, x + [k, l])
      ensures f(k, l) == Term(env, [a, b])
    {
      TermIsBoth(env, a, b);
    }
    OverTwo(n, out, x, s, Bind(out, x), [a, b], f);
  }

  lemma ThreeSummed(n: Extents, out: string, s: string, x: seq<int>, a: Operand, b: Operand, f: Triple)
    requires |s| == 3 && Distinct(out + s) && |out| == |x|
    requires forall env, k, l, m | Bound(env, out + s, x + [k, l, m]) :: f(k, l, m) == Both(env, a, b)
    ensures Ein(n, out, s, [a, b])(x) == Box3(n(s[0]), n(s[1]), n(s[2]), f)
  {
    hide Bind, Bound, Over, Box3, Distinct, Both, Term;
    Apart(out, s);
    BindBinds(out, x);
    forall env, k, l, m | Bound(env, out + s, x + [k, l, m])
      ensures f(k, l, m) == Term(env, [a, b])
    {
      TermIsBoth(env, a, b);
    }
    OverThree(n, out, x, s, Bind(out, x), [a, b], f);
  }

  // ---- any operands ---------------------------------------------------------------------------

  /** Labels that are distinct together are distinct on their own and from each other. */
  lemma Apart(a: string, b: string)
    requires Distinct(a + b)
    ensures Distinct(a) && Distinct(b) && forall q | 0 <= q < |b| :: b[q] !in a
  {
    DistinctTail(a, b);
    assert forall p | 0 <= p < |a| :: a[p] == (a + b)[p];
    forall q | 0 <= q < |b|
      ensures b[q] !in a
    {
      assert (a + b)[|a| + q] == b[q];
    }
  }

  /** New labels: distinct, and none of them bound yet. */
  predicate New(labels: string, s: string) {
    Distinct(s) && forall q | 0 <= q < |s| :: s[q] !in labels
  }

  lemma NewTail(labels: string, s: string)
    requires New(labels, s) && |s| > 0
    ensures s[0] !in labels && New(labels + [s[0]], s[1..])
  {
  }

  lemma OverOne(n: Extents, labels: string, x: seq<int>, s: string, e: Env, ops: seq<Operand>, f: int -> real)
    requires Bound(e, labels, x) && |s| == 1 && New(labels, s)
    requires forall env, k | Bound(env, labels + s, x + [k]) :: f(k) == Term(env, ops)
    ensures Over(n, s, e, ops) == Sum(0, n(s[0]), f)
  {
    hide Over, Sum, Term, Bound;
    var c := s[0];
    assert [c] + "" == s && labels + [c] == labels + s;
    forall k
      ensures f(k) == Over(n, "", Put(e, c, k), ops)
    {
      PutBinds(e, labels, x, c, k);
      OverNone(n, "", Put(e, c, k), ops);
    }
    OverIsSum(n, c, "", e, ops, f);
  }

  lemma OverTwo(n: Extents, labels: string, x: seq<int>, s: string, e: Env, ops: seq<Operand>, f: Pair)
    requires Bound(e, labels, x) && |s| == 2 && New(labels, s)
    requires forall env, k, l | Bound(env, labels + s, x + [k, l]) :: f(k, l) == Term(env, ops)
    ensures Over(n, s, e, ops) == Box2(n(s[0]), n(s[1]), f)
  {
    hide Over, Sum, Term, Bound, New;
    var c, rest := s[0], s[1..];
    NewTail(labels, s);
    assert [c] + rest == s && labels + [c] + rest == labels + s;
    forall k
      ensures Row(0, n(s[1]), f)(k) == Over(n, rest, Put(e, c, k), ops)
    {
      PutBinds(e, labels, x, c, k);
      forall env, l | Bound(env, labels + [c] + rest, x + [k] + [l])
        ensures At(f, k)(l) == Term(env, ops)
      {
        assert x + [k] + [l] == x + [k, l];
      }
      OverOne(n, labels + [c], x + [k], rest, Put(e, c, k), ops, At(f, k));
    }
    OverIsSum(n, c, rest, e, ops, Row(0, n(s[1]), f));
  }

  lemma OverThree(n: Extents, labels: string, x: seq<int>, s: string, e: Env, ops: seq<Operand>, f: Triple)
    requires Bound(e, labels, x) && |s| == 3 && New(labels, s)
    requires forall env, k, l, m | Bound(env, labels + s, x + [k, l, m]) :: f(k, l, m) == Term(env, ops)
    ensures Over(n, s, e, ops) == Box3(n(s[0]), n(s[1]), n(s[2]), f)
  {
    hide Over, Sum, Box2, Term, Bound, New;
    var c, rest := s[0], s[1..];
    NewTail(labels, s);
    assert [c] + rest == s && labels + [c] + rest == labels + s;
    forall k
      ensures Planes(n(s[1]), n(s[2]), f)(k) == Over(n, rest, Put(e, c, k), ops)
    {
      PutBinds(e, labels, x, c, k);
      forall env, l, m | Bound(env, labels + [c] + rest, x + [k] + [l, m])
        ensures Plane(f, k)(l, m) == Term(env, ops)
      {
        assert x + [k] + [l, m] == x + [k, l, m];
      }
      OverTwo(n, labels + [c], x + [k], rest, Put(e, c, k), ops, Plane(f, k));
    }
    OverIsSum(n, c, rest, e, ops, Planes(n(s[1]), n(s[2]), f));
  }

  lemma OverFour(n: Extents, labels: string, x: seq<int>, s: string, e: Env, ops: seq<Operand>, f: Quad)
    requires Bound(e, labels, x) && |s| == 4 && New(labels, s)
    requires forall env, k, l, m, q | Bound(env, labels + s, x + [k, l, m, q]) :: f(k, l, m, q) == Term(env, ops)
    ensures Over(n, s, e, ops) == Box4(n(s[0]), n(s[1]), n(s[2]), n(s[3]), f)
  {
    hide Over, Sum, Box3, Term, Bound, New;
    var c, rest := s[0], s[1..];
    NewTail(labels, s);
    assert [c] + rest == s && labels + [c] + rest == labels + s;
    forall k
      ensures Solids(n(s[1]), n(s[2]), n(s[3]), f)(k) == Over(n, rest, Put(e, c, k), ops)
    {
      PutBinds(e, labels, x, c, k);
      forall env, l, m, q | Bound(env, labels + [c] + rest, x + [k] + [l, m, q])
        ensures Solid(f, k)(l, m, q) == Term(env, ops)
      {
        assert x + [k] + [l, m, q] == x + [k, l, m, q];
      }
      OverThree(n, labels + [c], x + [k], rest, Put(e, c, k), ops, Solid(f, k));
    }
    OverIsSum(n, c, rest, e, ops, Solids(n(s[1]), n(s[2]), n(s[3]), f));
  }
}
