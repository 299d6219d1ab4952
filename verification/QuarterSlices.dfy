/** The four blocks of the in-core transform as slices of one transform: the one with the occupied and the virtual
    coefficients side by side, as a four-fold sum. */
module QuarterSlices {
  import opened BoxSums
  import opened Einsum
  import opened EinsumSums
  import opened QuarterTransform

  /** Coefficients of all orbitals: the occupied columns, then the virtual ones. */
  function Coefficient(nocc: nat, co: Val, cv: Val, mu: int, p: int): real {
    if p < nocc then co([mu, p]) else cv([mu, p - nocc])
  }

  /** C[mu p] C[nu q] (mu nu|lambda sigma) C[lambda r] C[sigma s] */
  function Transformed(nocc: nat, co: Val, cv: Val, ao: Val, p: int, q: int, r: int, s: int): Quad {
    (mu, nu, lam, sig) =>
      Coefficient(nocc, co, cv, mu, p) * (Coefficient(nocc, co, cv, nu, q) * (ao([mu, nu, lam, sig])
      * (Coefficient(nocc, co, cv, lam, r) * Coefficient(nocc, co, cv, sig, s))))
  }

  /** One integral over molecular orbitals. */
  function Mo(n: Extents, nocc: nat, co: Val, cv: Val, ao: Val, p: int, q: int, r: int, s: int): real {
    Box4(n('M'), n('N'), n('L'), n('S'), Transformed(nocc, co, cv, ao, p, q, r, s))
  }

  lemma BoundEight(env: Env, labels: string, x: seq<int>)
    requires Bound(env, labels, x) && |labels| == 8
    ensures Get(env, labels[0]) == x[0] && Get(env, labels[1]) == x[1] && Get(env, labels[2]) == x[2]
    ensures Get(env, labels[3]) == x[3] && Get(env, labels[4]) == x[4] && Get(env, labels[5]) == x[5]
    ensures Get(env, labels[6]) == x[6] && Get(env, labels[7]) == x[7]
  {
  }

  lemma Term5(env: Env, a: Operand, b: Operand, c: Operand, d: Operand, e: Operand)
    ensures Term(env, [a, b, c, d, e])
         == a.val(Look(env, a.idx)) * (b.val(Look(env, b.idx)) * (c.val(Look(env, c.idx))
            * (d.val(Look(env, d.idx)) * e.val(Look(env, e.idx)))))
  {
    assert [a, b, c, d, e][1..] == [b, c, d, e] && [b, c, d, e][1..] == [c, d, e];
    assert [c, d, e][1..] == [d, e];
    Term2(env, d, e);
    assert Term(env, [c, d, e]) == c.val(Look(env, c.idx)) * Term(env, [d, e]);
    assert Term(env, [b, c, d, e]) == b.val(Look(env, b.idx)) * Term(env, [c, d, e]);
  }

  lemma OoooReads(nocc: nat, co: Val, cv: Val, ao: Val, i: int, j: int, k: int, l: int,
                  env: Env, mu: int, nu: int, lam: int, sig: int)
    requires 0 <= i < nocc && 0 <= j < nocc && 0 <= k < nocc && 0 <= l < nocc
    requires Bound(env, "ijklMNLS", [i, j, k, l, mu, nu, lam, sig])
    ensures Term(env, [Op("Mi", co), Op("Nj", co), Op("MNLS", ao), Op("Lk", co), Op("Sl", co)])
         == Transformed(nocc, co, cv, ao, i, j, k, l)(mu, nu, lam, sig)
  {
    hide Term, Look;
    BoundEight(env, "ijklMNLS", [i, j, k, l, mu, nu, lam, sig]);
    Look2(env, "Mi", mu, i);
    Look2(env, "Nj", nu, j);
    Look4(env, "MNLS", mu, nu, lam, sig);
    Look2(env, "Lk", lam, k);
    Look2(env, "Sl", sig, l);
    Term5(env, Op("Mi", co), Op("Nj", co), Op("MNLS", ao),
          Op("Lk", co), Op("Sl", co));
  }

  lemma OoovReads(nocc: nat, co: Val, cv: Val, ao: Val, i: int, j: int, k: int, a: int,
                  env: Env, mu: int, nu: int, lam: int, sig: int)
    requires 0 <= i < nocc && 0 <= j < nocc && 0 <= k < nocc && 0 <= a
    requires Bound(env, "ijkaMNLS", [i, j, k, a, mu, nu, lam, sig])
    ensures Term(env, [Op("Mi", co), Op("Nj", co), Op("MNLS", ao), Op("Lk", co), Op("Sa", cv)])
         == Transformed(nocc, co, cv, ao, i, j, k, nocc + a)(mu, nu, lam, sig)
  {
    hide Term, Look;
    BoundEight(env, "ijkaMNLS", [i, j, k, a, mu, nu, lam, sig]);
    Look2(env, "Mi", mu, i);
    Look2(env, "Nj", nu, j);
    Look4(env, "MNLS", mu, nu, lam, sig);
    Look2(env, "Lk", lam, k);
    Look2(env, "Sa", sig, a);
    Term5(env, Op("Mi", co), Op("Nj", co), Op("MNLS", ao),
          Op("Lk", co), Op("Sa", cv));
  }

  lemma OovvReads(nocc: nat, co: Val, cv: Val, ao: Val, i: int, j: int, a: int, b: int,
                  env: Env, mu: int, nu: int, lam: int, sig: int)
    requires 0 <= i < nocc && 0 <= j < nocc && 0 <= a && 0 <= b
    requires Bound(env, "ijabMNLS", [i, j, a, b, mu, nu, lam, sig])
    ensures Term(env, [Op("Mi", co), Op("Nj", co), Op("MNLS", ao), Op("La", cv), Op("Sb", cv)])
         == Transformed(nocc, co, cv, ao, i, j, nocc + a, nocc + b)(mu, nu, lam, sig)
  {
    hide Term, Look;
    BoundEight(env, "ijabMNLS", [i, j, a, b, mu, nu, lam, sig]);
    Look2(env, "Mi", mu, i);
    Look2(env, "Nj", nu, j);
    Look4(env, "MNLS", mu, nu, lam, sig);
    Look2(env, "La", lam, a);
    Look2(env, "Sb", sig, b);
    Term5(env, Op("Mi", co), Op("Nj", co), Op("MNLS", ao),
          Op("La", cv), Op("Sb", cv));
  }

  lemma OvovReads(nocc: nat, co: Val, cv: Val, ao: Val, i: int, a: int, j: int, b: int,
                  env: Env, mu: int, nu: int, lam: int, sig: int)
    requires 0 <= i < nocc && 0 <= j < nocc && 0 <= a && 0 <= b
    requires Bound(env, "iajbMNLS", [i, a, j, b, mu, nu, lam, sig])
    ensures Term(env, [Op("Mi", co), Op("Na", cv), Op("MNLS", ao), Op("Lj", co), Op("Sb", cv)])
         == Transformed(nocc, co, cv, ao, i, nocc + a, j, nocc + b)(mu, nu, lam, sig)
  {
    hide Term, Look;
    BoundEight(env, "iajbMNLS", [i, a, j, b, mu, nu, lam, sig]);
    Look2(env, "Mi", mu, i);
    Look2(env, "Na", nu, a);
    Look4(env, "MNLS", mu, nu, lam, sig);
    Look2(env, "Lj", lam, j);
    Look2(env, "Sb", sig, b);
    Term5(env, Op("Mi", co), Op("Na", cv), Op("MNLS", ao),
          Op("Lj", co), Op("Sb", cv));
  }

  /** Every block is the slice of the one transform that its labels say. */
  lemma OoooIsSlice(n: Extents, nocc: nat, co: Val, cv: Val, ao: Val, i: int, j: int, k: int, l: int)
    requires 0 <= i < nocc && 0 <= j < nocc && 0 <= k < nocc && 0 <= l < nocc
    ensures Oooo(n, co, ao)([i, j, k, l]) == Mo(n, nocc, co, cv, ao, i, j, k, l)
  {
    hide Box4, Over, Bind, Term, Bound, Transformed;
    var ops := [Op("Mi", co), Op("Nj", co), Op("MNLS", ao), Op("Lk", co), Op("Sl", co)];
    var f := Transformed(nocc, co, cv, ao, i, j, k, l);
    assert "ijkl" + "MNLS" == "ijklMNLS";
    forall env, mu, nu, lam, sig | Bound(env, "ijkl" + "MNLS", [i, j, k, l] + [mu, nu, lam, sig])
      ensures f(mu, nu, lam, sig) == Term(env, ops)
    {
      assert [i, j, k, l] + [mu, nu, lam, sig] == [i, j, k, l, mu, nu, lam, sig];
      OoooReads(nocc, co, cv, ao, i, j, k, l, env, mu, nu, lam, sig);
    }
    BindBinds("ijkl", [i, j, k, l]);
    OverFour(n, "ijkl", [i, j, k, l], "MNLS", Bind("ijkl", [i, j, k, l]), ops, f);
  }

  lemma OoovIsSlice(n: Extents, nocc: nat, co: Val, cv: Val, ao: Val, i: int, j: int, k: int, a: int)
    requires 0 <= i < nocc && 0 <= j < nocc && 0 <= k < nocc && 0 <= a
    ensures Ooov(n, co, cv, ao)([i, j, k, a]) == Mo(n, nocc, co, cv, ao, i, j, k, nocc + a)
  {
    hide Box4, Over, Bind, Term, Bound, Transformed;
    var ops := [Op("Mi", co), Op("Nj", co), Op("MNLS", ao), Op("Lk", co), Op("Sa", cv)];
    var f := Transformed(nocc, co, cv, ao, i, j, k, nocc + a);
    assert "ijka" + "MNLS" == "ijkaMNLS";
    forall env, mu, nu, lam, sig | Bound(env, "ijka" + "MNLS", [i, j, k, a] + [mu, nu, lam, sig])
      ensures f(mu, nu, lam, sig) == Term(env, ops)
    {
      assert [i, j, k, a] + [mu, nu, lam, sig] == [i, j, k, a, mu, nu, lam, sig];
      OoovReads(nocc, co, cv, ao, i, j, k, a, env, mu, nu, lam, sig);
    }
    BindBinds("ijka", [i, j, k, a]);
    OverFour(n, "ijka", [i, j, k, a], "MNLS", Bind("ijka", [i, j, k, a]), ops, f);
  }

  lemma OovvIsSlice(n: Extents, nocc: nat, co: Val, cv: Val, ao: Val, i: int, j: int, a: int, b: int)
    requires 0 <= i < nocc && 0 <= j < nocc && 0 <= a && 0 <= b
    ensures Oovv(n, co, cv, ao)([i, j, a, b]) == Mo(n, nocc, co, cv, ao, i, j, nocc + a, nocc + b)
  {
    hide Box4, Over, Bind, Term, Bound, Transformed;
    var ops := [Op("Mi", co), Op("Nj", co), Op("MNLS", ao), Op("La", cv), Op("Sb", cv)];
    var f := Transformed(nocc, co, cv, ao, i, j, nocc + a, nocc + b);
    assert "ijab" + "MNLS" == "ijabMNLS";
    forall env, mu, nu, lam, sig | Bound(env, "ijab" + "MNLS", [i, j, a, b] + [mu, nu, lam, sig])
      ensures f(mu, nu, lam, sig) == Term(env, ops)
    {
      assert [i, j, a, b] + [mu, nu, lam, sig] == [i, j, a, b, mu, nu, lam, sig];
      OovvReads(nocc, co, cv, ao, i, j, a, b, env, mu, nu, lam, sig);
    }
    BindBinds("ijab", [i, j, a, b]);
    OverFour(n, "ijab", [i, j, a, b], "MNLS", Bind("ijab", [i, j, a, b]), ops, f);
  }

  lemma OvovIsSlice(n: Extents, nocc: nat, co: Val, cv: Val, ao: Val, i: int, a: int, j: int, b: int)
    requires 0 <= i < nocc && 0 <= j < nocc && 0 <= a && 0 <= b
    ensures Ovov(n, co, cv, ao)([i, a, j, b]) == Mo(n, nocc, co, cv, ao, i, nocc + a, j, nocc + b)
  {
    hide Box4, Over, Bind, Term, Bound, Transformed;
    var ops := [Op("Mi", co), Op("Na", cv), Op("MNLS", ao), Op("Lj", co), Op("Sb", cv)];
    var f := Transformed(nocc, co, cv, ao, i, nocc + a, j, nocc + b);
    assert "iajb" + "MNLS" == "iajbMNLS";
    forall env, mu, nu, lam, sig | Bound(env, "iajb" + "MNLS", [i, a, j, b] + [mu, nu, lam, sig])
      ensures f(mu, nu, lam, sig) == Term(env, ops)
    {
      assert [i, a, j, b] + [mu, nu, lam, sig] == [i, a, j, b, mu, nu, lam, sig];
      OvovReads(nocc, co, cv, ao, i, a, j, b, env, mu, nu, lam, sig);
    }
    BindBinds("iajb", [i, a, j, b]);
    OverFour(n, "iajb", [i, a, j, b], "MNLS", Bind("iajb", [i, a, j, b]), ops, f);
  }
}
