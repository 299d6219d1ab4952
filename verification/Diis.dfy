/** The DIIS accelerator of the closed-shell example: a bounded history, and an extrapolation whose weights sum to one
    and make the extrapolated error as small as any such combination of the held errors can be. */
module Diis {
  import Sums
  import opened Wrappers

  type Vec = seq<real>

  // ---- vectors --------------------------------------------------------------------------------

  function Inner(u: Vec, v: Vec): real
    requires |u| == |v|
  {
    if |u| == 0 then 0.0 else u[0] * v[0] + Inner(u[1..], v[1..])
  }

  function Axpy(c: real, u: Vec, v: Vec): (r: Vec)
    requires |u| == |v|
    ensures |r| == |u|
  {
    seq(|u|, k requires 0 <= k < |u| => c * u[k] + v[k])
  }

  function Zeros(n: nat): (r: Vec)
    ensures |r| == n
  {
    seq(n, _ => 0.0)
  }

  ghost predicate Sized(n: nat, vs: seq<Vec>) { forall k | 0 <= k < |vs| :: |vs[k]| == n }

  /** The weighted sum of vectors, accumulated from the left. */
  function Combine(n: nat, c: Vec, vs: seq<Vec>): (r: Vec)
    requires |c| == |vs| && Sized(n, vs)
    ensures |r| == n
  {
    if |c| == 0 then Zeros(n) else Axpy(c[|c| - 1], vs[|c| - 1], Combine(n, c[..|c| - 1], vs[..|c| - 1]))
  }

  function Total(c: Vec): real { if |c| == 0 then 0.0 else c[0] + Total(c[1..]) }

  /** The inner products of a vector with each of several. */
  function Inners(n: nat, u: Vec, vs: seq<Vec>): (r: Vec)
    requires |u| == n && Sized(n, vs)
    ensures |r| == |vs|
  {
    seq(|vs|, k requires 0 <= k < |vs| => Inner(u, vs[k]))
  }

  lemma {:induction false} InnerAxpy(w: Vec, c: real, u: Vec, v: Vec)
    requires |w| == |u| == |v|
    ensures Inner(w, Axpy(c, u, v)) == c * Inner(w, u) + Inner(w, v)
  {
    if |w| > 0 {
      InnerAxpy(w[1..], c, u[1..], v[1..]);
      AxpyTail(c, u, v);
      Distribute(w[0], c, u[0], v[0], Inner(w[1..], u[1..]));
    }
  }

  lemma AxpyTail(c: real, u: Vec, v: Vec)
    requires |u| == |v| > 0
    ensures Axpy(c, u, v)[1..] == Axpy(c, u[1..], v[1..]) && Axpy(c, u, v)[0] == c * u[0] + v[0]
  {
    forall k | 0 <= k < |u| - 1
      ensures Axpy(c, u, v)[1..][k] == Axpy(c, u[1..], v[1..])[k]
    {
      assert u[1..][k] == u[k + 1] && v[1..][k] == v[k + 1];
    }
  }

  lemma Distribute(w: real, c: real, u: real, v: real, rest: real)
    ensures w * (c * u + v) + c * rest == c * (w * u + rest) + w * v
  {
  }

  lemma {:induction false} InnerSymmetric(u: Vec, v: Vec)
    requires |u| == |v|
    ensures Inner(u, v) == Inner(v, u)
  {
    if |u| > 0 {
      InnerSymmetric(u[1..], v[1..]);
    }
  }

  lemma {:induction false} InnerSnoc(u: Vec, v: Vec)
    requires |u| == |v| > 0
    ensures Inner(u, v) == Inner(u[..|u| - 1], v[..|u| - 1]) + u[|u| - 1] * v[|u| - 1]
  {
    if |u| > 1 {
      InnerSnoc(u[1..], v[1..]);
      assert u[1..][..|u| - 2] == u[..|u| - 1][1..] && v[1..][..|u| - 2] == v[..|u| - 1][1..];
    }
  }

  lemma {:induction false} InnerZeros(w: Vec)
    ensures Inner(w, Zeros(|w|)) == 0.0
  {
    if |w| > 0 {
      InnerZeros(w[1..]);
      assert Zeros(|w|)[1..] == Zeros(|w| - 1);
    }
  }

  lemma InnerNothing(u: Vec, v: Vec)
    requires |u| == |v| == 0
    ensures Inner(u, v) == 0.0
  {
  }

  /** The inner product is linear in a combination. */
  lemma {:induction false} InnerCombine(n: nat, w: Vec, c: Vec, vs: seq<Vec>)
    requires |c| == |vs| && |w| == n && Sized(n, vs)
    ensures Inner(w, Combine(n, c, vs)) == Inner(c, Inners(n, w, vs))
    decreases |c|
  {
    hide Inner, Axpy;
    if |c| == 0 {
      InnerZeros(w);
      InnerNothing(c, Inners(n, w, vs));
    } else {
      var k := |c| - 1;
      InnerCombine(n, w, c[..k], vs[..k]);
      InnerAxpy(w, c[k], vs[k], Combine(n, c[..k], vs[..k]));
      InnerSnoc(c, Inners(n, w, vs));
      assert Inners(n, w, vs)[..k] == Inners(n, w, vs[..k]);
    }
  }

  lemma {:induction false} InnerConstant(c: Vec, w: Vec, mu: real)
    requires |c| == |w| && forall k | 0 <= k < |w| :: w[k] == mu
    ensures Inner(c, w) == mu * Total(c)
  {
    if |c| > 0 {
      InnerConstant(c[1..], w[1..], mu);
    }
  }

  /** The square of a difference, expanded, is never negative. */
  lemma {:induction false} SquareOfDifference(u: Vec, v: Vec)
    requires |u| == |v|
    ensures Inner(u, u) - 2.0 * Inner(u, v) + Inner(v, v) >= 0.0
  {
    if |u| > 0 {
      SquareOfDifference(u[1..], v[1..]);
      assert u[0] * u[0] - 2.0 * (u[0] * v[0]) + v[0] * v[0] == (u[0] - v[0]) * (u[0] - v[0]) >= 0.0;
    }
  }

  // ---- optimality -------------------------------------------------------------------------------

  /** Weights that sum to one, and no such weights combine the errors to a smaller one. */
  ghost predicate Optimal(n: nat, c: Vec, errors: seq<Vec>)
    requires Sized(n, errors)
  {
    && |c| == |errors| && Total(c) == 1.0
    && forall d | |d| == |errors| && Total(d) == 1.0 ::
         Inner(Combine(n, c, errors), Combine(n, c, errors)) <= Inner(Combine(n, d, errors), Combine(n, d, errors))
  }

  /** If every held error has the same inner product with the combined error, the weights are optimal. */
  lemma EquallyInclined(n: nat, c: Vec, errors: seq<Vec>, mu: real)
    requires |c| == |errors| && Sized(n, errors) && Total(c) == 1.0
    requires forall p | 0 <= p < |errors| :: Inner(errors[p], Combine(n, c, errors)) == mu
    ensures Optimal(n, c, errors)
  {
    hide Combine, Inner, Total;
    var e := Combine(n, c, errors);
    forall d | |d| == |errors| && Total(d) == 1.0
      ensures Inner(e, e) <= Inner(Combine(n, d, errors), Combine(n, d, errors))
    {
      var f := Combine(n, d, errors);
      Projection(n, c, errors, e, mu);
      Projection(n, d, errors, e, mu);
      InnerSymmetric(e, f);
      SquareOfDifference(f, e);
    }
  }

  lemma Projection(n: nat, d: Vec, errors: seq<Vec>, e: Vec, mu: real)
    requires |d| == |errors| && Sized(n, errors) && Total(d) == 1.0 && |e| == n
    requires forall p | 0 <= p < |errors| :: Inner(errors[p], e) == mu
    ensures Inner(e, Combine(n, d, errors)) == mu
  {
    hide Combine, Total, Inner;
    InnerCombine(n, e, d, errors);
    forall p | 0 <= p < |errors|
      ensures Inners(n, e, errors)[p] == mu
    {
      InnerSymmetric(e, errors[p]);
    }
    InnerConstant(d, Inners(n, e, errors), mu);
  }

  // ---- the bordered system ------------------------------------------------------------------------

  type Solver = (seq<Vec>, Vec) -> Option<Vec>

  /** A solver that returns a solution or reports that there is none to be had. */
  ghost predicate Exact(solve: Solver) {
    forall b: seq<Vec>, r: Vec | |b| == |r| && Sized(|r|, b) && solve(b, r).Some? ::
      |solve(b, r).value| == |r| && forall p | 0 <= p < |r| :: Inner(b[p], solve(b, r).value) == r[p]
  }

  /** Row p of the matrix: scaled inner products and a border of minus ones with a zero corner. */
  function BorderedRow(n: nat, errors: seq<Vec>, scale: real, p: nat): (r: Vec)
    requires Sized(n, errors) && p <= |errors| && scale != 0.0
    ensures |r| == |errors| + 1
  {
    var m := |errors|;
    seq(m + 1, q requires 0 <= q <= m =>
      if p < m && q < m then Inner(errors[p], errors[q]) / scale else if p < m || q < m then -1.0 else 0.0)
  }

  function RightSide(m: nat): Vec { seq(m + 1, p => if p == m then -1.0 else 0.0) }

  lemma {:induction false} InnerScaled(u: Vec, v: Vec, c: Vec, scale: real)
    requires |u| == |v| == |c| && scale != 0.0 && forall k | 0 <= k < |u| :: v[k] == u[k] / scale
    ensures scale * Inner(v, c) == Inner(u, c)
  {
    if |u| > 0 {
      InnerScaled(u[1..], v[1..], c[1..], scale);
      assert scale * v[0] == u[0];
      Factor(scale, v[0], c[0], Inner(v[1..], c[1..]));
    }
  }

  lemma Factor(scale: real, v: real, c: real, rest: real)
    ensures scale * (v * c + rest) == (scale * v) * c + scale * rest
  {
  }

  lemma {:induction false} InnerMinusOnes(u: Vec, c: Vec)
    requires |u| == |c| && forall k | 0 <= k < |u| :: u[k] == -1.0
    ensures Inner(u, c) == -Total(c)
  {
    if |u| > 0 {
      InnerMinusOnes(u[1..], c[1..]);
    }
  }

  /** The last row says that the weights sum to one. */
  lemma LastRow(n: nat, errors: seq<Vec>, scale: real, x: Vec)
    requires Sized(n, errors) && scale != 0.0 && |x| == |errors| + 1
    requires Inner(BorderedRow(n, errors, scale, |errors|), x) == -1.0
    ensures Total(x[..|errors|]) == 1.0
  {
    var m := |errors|;
    var row := BorderedRow(n, errors, scale, m);
    InnerSnoc(row, x);
    InnerMinusOnes(row[..m], x[..m]);
  }

  /** Every other row says that its error is as inclined to the combined error as all the others. */
  lemma OtherRow(n: nat, errors: seq<Vec>, scale: real, x: Vec, p: nat)
    requires Sized(n, errors) && scale != 0.0 && |x| == |errors| + 1 && p < |errors|
    requires Inner(BorderedRow(n, errors, scale, p), x) == 0.0
    ensures Inner(errors[p], Combine(n, x[..|errors|], errors)) == scale * x[|errors|]
  {
    hide Combine, Inner;
    var m := |errors|;
    var row, c := BorderedRow(n, errors, scale, p), x[..m];
    InnerSnoc(row, x);
    InnerCombine(n, errors[p], c, errors);
    InnerSymmetric(c, Inners(n, errors[p], errors));
    InnerScaled(Inners(n, errors[p], errors), row[..m], c, scale);
  }

  /** A solution of the bordered system is optimal, whatever positive scale the matrix was divided by. */
  lemma SolutionIsOptimal(n: nat, errors: seq<Vec>, scale: real, x: Vec)
    requires Sized(n, errors) && scale != 0.0 && |x| == |errors| + 1
    requires forall p | 0 <= p <= |errors| :: Inner(BorderedRow(n, errors, scale, p), x) == RightSide(|errors|)[p]
    ensures Optimal(n, x[..|errors|], errors)
  {
    hide Combine, Inner, Total, BorderedRow, Optimal;
    var m := |errors|;
    assert Inner(BorderedRow(n, errors, scale, m), x) == RightSide(m)[m];
    LastRow(n, errors, scale, x);
    forall p | 0 <= p < m
      ensures Inner(errors[p], Combine(n, x[..m], errors)) == scale * x[m]
    {
      assert Inner(BorderedRow(n, errors, scale, p), x) == RightSide(m)[p];
      OtherRow(n, errors, scale, x, p);
    }
    EquallyInclined(n, x[..m], errors, scale * x[m]);
  }

  function Abs(x: real): real { if x < 0.0 then -x else x }

  /** The bordered matrix, filled by symmetric pairs and scaled by its largest entry unless that is zero. */
  method Bordered(n: nat, errors: seq<Vec>) returns (rows: seq<Vec>, ghost divisor: real)
    requires Sized(n, errors)
    ensures divisor != 0.0 && |rows| == |errors| + 1
    ensures forall p | 0 <= p <= |errors| :: rows[p] == BorderedRow(n, errors, divisor, p)
  {
    hide Inner, Abs;
    var m := |errors|;
    var b := new real[m + 1, m + 1];
    for p := 0 to m + 1
      invariant forall q | 0 <= q < p :: b[m, q] == -1.0 && b[q, m] == -1.0
    {
      b[m, p] := -1.0;
      b[p, m] := -1.0;
    }
    b[m, m] := 0.0;
    for p := 0 to m
      invariant b[m, m] == 0.0 && forall q | 0 <= q < m :: b[m, q] == -1.0 && b[q, m] == -1.0
      invariant forall u, v | 0 <= u < m && 0 <= v < m && (u < p || v < p) :: b[u, v] == Inner(errors[u], errors[v])
    {
      for q := p to m
        invariant b[m, m] == 0.0 && forall q | 0 <= q < m :: b[m, q] == -1.0 && b[q, m] == -1.0
        invariant forall u, v | 0 <= u < m && 0 <= v < m && (u < p || v < p) :: b[u, v] == Inner(errors[u], errors[v])
        invariant forall v | p <= v < q ::
                  b[p, v] == Inner(errors[p], errors[v]) && b[v, p] == Inner(errors[v], errors[p])
      {
        InnerSymmetric(errors[p], errors[q]);
        b[p, q] := Inner(errors[p], errors[q]);
        b[q, p] := b[p, q];
      }
    }
    var scale := 0.0;
    for p := 0 to m
      invariant scale >= 0.0
    {
      for q := 0 to m
        invariant scale >= 0.0
      {
        scale := if scale < Abs(b[p, q]) then Abs(b[p, q]) else scale;
      }
    }
    divisor := if scale > 0.0 then scale else 1.0;
    rows := [];
    for p := 0 to m + 1
      invariant |rows| == p && forall u | 0 <= u < p :: rows[u] == BorderedRow(n, errors, divisor, u)
    {
      var row := seq(m + 1, q requires 0 <= q <= m reads b =>
        if scale > 0.0 && p < m && q < m then b[p, q] / scale else b[p, q]);
      assert row == BorderedRow(n, errors, divisor, p);
      rows := rows + [row];
    }
  }

  // ---- the accelerator --------------------------------------------------------------------------

  class Accelerator {
    const n: nat
    const k: nat
    var vectors: seq<Vec>
    var errors: seq<Vec>

    ghost predicate Valid()
      reads this
    {
      |vectors| == |errors| <= k && Sized(n, vectors) && Sized(n, errors)
    }

    constructor (n: nat, k: nat)
      ensures Valid() && this.n == n && this.k == k && vectors == [] && errors == []
    {
      this.n, this.k, vectors, errors := n, k, [], [];
    }

    /** Appends a pair; a pair too many drops the oldest. */
    method Push(t: Vec, e: Vec)
      requires Valid() && |t| == n && |e| == n
      modifies this
      ensures Valid()
      ensures vectors == if |old(vectors)| == k then (old(vectors) + [t])[1..] else old(vectors) + [t]
      ensures errors == if |old(errors)| == k then (old(errors) + [e])[1..] else old(errors) + [e]
    {
      vectors := vectors + [t];
      errors := errors + [e];
      if |vectors| > k {
        vectors := vectors[1..];
        errors := errors[1..];
      }
    }

    /** Drops the oldest pairs until the system can be solved; then the extrapolant combines the held vectors with
        optimal weights.  There is none just when fewer than two pairs are left. */
    method Extrapolate(solve: Solver) returns (r: Option<Vec>, ghost c: Vec)
      requires Valid() && Exact(solve)
      modifies this
      ensures Valid() && |vectors| <= |old(vectors)|
      ensures vectors == old(vectors)[|old(vectors)| - |vectors|..] && errors == old(errors)[|old(errors)| - |errors|..]
      ensures r.None? <==> |vectors| < 2
      ensures r.Some? ==> Optimal(n, c, errors) && r.value == Combine(n, c, vectors)
    {
      hide Combine, Optimal, Inner, BorderedRow, RightSide, Exact, Sized;
      c := [];
      while |vectors| >= 2
        invariant Valid() && |vectors| <= |old(vectors)|
        invariant vectors == old(vectors)[|old(vectors)| - |vectors|..] &&
                  errors == old(errors)[|old(errors)| - |errors|..]
        decreases |vectors|
      {
        SizedTail(n, vectors);
        SizedTail(n, errors);
        var m := |errors|;
        var b, divisor := Bordered(n, errors);
        var x := solve(b, RightSide(m));
        if x.None? {
          vectors := vectors[1..];
          errors := errors[1..];
          continue;
        }
        Solved(n, errors, divisor, b, solve);
        c := x.value[..m];
        return Some(Combine(n, x.value[..m], vectors)), x.value[..m];
      }
      return None, [];
    }
  }

  lemma SizedTail(n: nat, vs: seq<Vec>)
    requires Sized(n, vs) && |vs| > 0
    ensures Sized(n, vs[1..])
  {
  }

  lemma Solved(n: nat, errors: seq<Vec>, divisor: real, b: seq<Vec>, solve: Solver)
    requires Sized(n, errors) && divisor != 0.0 && |b| == |errors| + 1
    requires forall p | 0 <= p <= |errors| :: b[p] == BorderedRow(n, errors, divisor, p)
    requires Exact(solve) && solve(b, RightSide(|errors|)).Some?
    ensures |solve(b, RightSide(|errors|)).value| == |errors| + 1
    ensures Optimal(n, solve(b, RightSide(|errors|)).value[..|errors|], errors)
  {
    hide Inner, BorderedRow, Optimal;
    SolutionIsOptimal(n, errors, divisor, solve(b, RightSide(|errors|)).value);
  }

  // ---- the operations as sums -----------------------------------------------------------------

  function Products(u: Vec, v: Vec): int -> real { k => if 0 <= k < |u| && k < |v| then u[k] * v[k] else 0.0 }
  function Entries(c: Vec): int -> real { k => if 0 <= k < |c| then c[k] else 0.0 }

  /** What element p of the held vectors contributes to element p of their combination. */
  function Parts(c: Vec, vs: seq<Vec>, p: nat): int -> real {
    k => if 0 <= k < |c| && k < |vs| && p < |vs[k]| then c[k] * vs[k][p] else 0.0
  }

  lemma {:induction false} InnerIs(u: Vec, v: Vec)
    requires |u| == |v|
    ensures Inner(u, v) == Sums.Sum(0, |u|, Products(u, v))
  {
    if |u| > 0 {
      var n := |u| - 1;
      InnerSnoc(u, v);
      InnerIs(u[..n], v[..n]);
      Sums.SumScale(0, n, 1.0, Products(u[..n], v[..n]), Products(u, v));
      Sums.SumLast(0, n, Products(u, v));
    }
  }

  lemma {:induction false} TotalIs(c: Vec)
    ensures Total(c) == Sums.Sum(0, |c|, Entries(c))
  {
    if |c| > 0 {
      TotalIs(c[1..]);
      SumShifted(0, |c| - 1, Entries(c[1..]), Entries(c));
    }
  }

  lemma {:induction false} SumShifted(lo: int, hi: int, f: int -> real, g: int -> real)
    requires forall k | lo <= k < hi :: f(k) == g(k + 1)
    ensures Sums.Sum(lo, hi, f) == Sums.Sum(lo + 1, hi + 1, g)
    decreases hi - lo
  {
    if lo < hi {
      SumShifted(lo + 1, hi, f, g);
    }
  }

  lemma {:induction false} CombineIs(n: nat, c: Vec, vs: seq<Vec>, p: nat)
    requires |c| == |vs| && Sized(n, vs) && p < n
    ensures Combine(n, c, vs)[p] == Sums.Sum(0, |c|, Parts(c, vs, p))
    decreases |c|
  {
    if |c| > 0 {
      var m := |c| - 1;
      CombineIs(n, c[..m], vs[..m], p);
      Sums.SumScale(0, m, 1.0, Parts(c[..m], vs[..m], p), Parts(c, vs, p));
      Sums.SumLast(0, m, Parts(c, vs, p));
    }
  }
}
