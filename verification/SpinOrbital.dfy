/** The synthetic spin-orbital system: integrals built from an arbitrary raw tensor, the
    integral blocks the equations read, and the orbital-energy denominators. */
module SpinOrbital {
  import opened Einsum

  /** `g` holds <pq||rs> over all spin orbitals, the `no` occupied ones first. */
  datatype System = System(no: nat, nv: nat, g: Val, eo: int -> real, ev: int -> real) {

    /** Labels i, j, k, m, n run over occupied orbitals and a, b, c, e, f over virtual ones. */
    function Extents(): Extents { c => if c in "abcef" then nv else no }

    /** A slice of the integrals: 'o' keeps an axis occupied, 'v' makes it virtual. */
    function Block(kinds: string): Val { x => g(Shift(kinds, x)) }

    function Shift(kinds: string, x: seq<int>): (y: seq<int>)
      ensures |y| == |x|
    {
      seq(|x|, p requires 0 <= p < |x| => if p < |kinds| && kinds[p] == 'v' then x[p] + no else x[p])
    }

    function Dia(): Val { x => if |x| == 2 then eo(x[0]) - ev(x[1]) else 0.0 }

    function Dijab(): Val { x => if |x| == 4 then eo(x[0]) + eo(x[1]) - ev(x[2]) - ev(x[3]) else 0.0 }

    function Dijkabc(): Val {
      x => if |x| == 6 then eo(x[0]) + eo(x[1]) + eo(x[2]) - ev(x[3]) - ev(x[4]) - ev(x[5]) else 0.0
    }

    /** A two-operand einsum over this system's orbitals. */
    function E(out: string, summed: string, ia: string, a: Val, ib: string, b: Val): Val {
      Ein(Extents(), out, summed, [Op(ia, a), Op(ib, b)])
    }
  }

  // ---- how the integrals are built ---------------------------------------------------------

  const GSCALE := 0.02

  /** Chemist integrals with the eight-fold symmetry, from any raw tensor. */
  function Chemist(raw: Val): Val {
    var i2 := WithinPairs(raw);
    Plus(i2, SwapAxes(SwapAxes(i2, 0, 2), 1, 3))
  }

  function WithinPairs(raw: Val): Val {
    var i1 := Plus(raw, SwapAxes(raw, 0, 1));
    Plus(i1, SwapAxes(i1, 2, 3))
  }

  /** Physicist order <pq|rs> = (pr|qs), scaled. */
  function Physicist(raw: Val): Val { Times(GSCALE, SwapAxes(Chemist(raw), 1, 2)) }

  /** Spin orbital 2p + s has spatial part p and spin s; integration over spin forces p, r and q, s to match. */
  function SpinBlocked(mo: Val): Val {
    x => if |x| == 4 && x[0] % 2 == x[2] % 2 && x[1] % 2 == x[3] % 2
         then mo([x[0] / 2, x[1] / 2, x[2] / 2, x[3] / 2]) else 0.0
  }

  function Antisymmetrized(raw: Val): Val { P(SpinBlocked(Physicist(raw)), 2, 3) }

  /** The system for `nspatial` orbitals of which `nocc` are occupied, with spatial energies `eps`. */
  function Toy(nspatial: nat, nocc: nat, raw: Val, eps: int -> real): System
    requires nocc <= nspatial
  {
    System(2 * nocc, 2 * (nspatial - nocc), Antisymmetrized(raw), i => eps(i / 2), a => eps((a + 2 * nocc) / 2))
  }

  ghost predicate Fermionic(g: Val) { Antisym(4, g, 0, 1) && Antisym(4, g, 2, 3) }

  lemma ChemistSymmetries(raw: Val, p: int, q: int, r: int, s: int)
    ensures Chemist(raw)([p, q, r, s]) == Chemist(raw)([r, s, p, q])
    ensures Chemist(raw)([p, q, r, s]) == Chemist(raw)([q, p, r, s]) == Chemist(raw)([p, q, s, r])
  {
    PermutedRaw(raw, p, q, r, s);
    PermutedRaw(raw, r, s, p, q);
    PermutedRaw(raw, q, p, r, s);
    PermutedRaw(raw, p, q, s, r);
  }

  lemma WithinPairsRaw(raw: Val, p: int, q: int, r: int, s: int)
    ensures WithinPairs(raw)([p, q, r, s])
              == raw([p, q, r, s]) + raw([q, p, r, s]) + raw([p, q, s, r]) + raw([q, p, s, r])
  {
    assert Exchange([p, q, r, s], 0, 1) == [q, p, r, s];
    assert Exchange([p, q, r, s], 2, 3) == [p, q, s, r];
    assert Exchange([p, q, s, r], 0, 1) == [q, p, s, r];
  }

  /** The eight raw elements that one symmetrized integral adds up. */
  lemma PermutedRaw(raw: Val, p: int, q: int, r: int, s: int)
    ensures Chemist(raw)([p, q, r, s])
         == raw([p, q, r, s]) + raw([q, p, r, s]) + raw([p, q, s, r]) + raw([q, p, s, r])
          + raw([r, s, p, q]) + raw([s, r, p, q]) + raw([r, s, q, p]) + raw([s, r, q, p])
  {
    WithinPairsRaw(raw, p, q, r, s);
    WithinPairsRaw(raw, r, s, p, q);
    assert Exchange([p, q, r, s], 1, 3) == [p, s, r, q];
    assert Exchange([p, s, r, q], 0, 2) == [r, s, p, q];
  }

  /** One spatial integral (pq|rs): the eight raw elements that symmetry makes equal, added and scaled. */
  function Spatial(raw: Val, p: int, q: int, r: int, s: int): real {
    0.02 * (raw([p, q, r, s]) + raw([q, p, r, s]) + raw([p, q, s, r]) + raw([q, p, s, r])
            + raw([r, s, p, q]) + raw([s, r, p, q]) + raw([r, s, q, p]) + raw([s, r, q, p]))
  }

  /** The toy's integrals written out: <pq||rs> is (pr|qs) when p, r and q, s have the same spins, less (ps|qr) when
      p, s and q, r do; a spin orbital's spin is its parity and its spatial orbital its half. */
  lemma ToyIntegralsAre(raw: Val, p: int, q: int, r: int, s: int)
    ensures Antisymmetrized(raw)([p, q, r, s])
         == (if p % 2 == r % 2 && q % 2 == s % 2 then Spatial(raw, p / 2, r / 2, q / 2, s / 2) else 0.0)
          - (if p % 2 == s % 2 && q % 2 == r % 2 then Spatial(raw, p / 2, s / 2, q / 2, r / 2) else 0.0)
  {
    assert Exchange([p, q, r, s], 2, 3) == [p, q, s, r];
    PhysicistIs(raw, p / 2, q / 2, r / 2, s / 2);
    PhysicistIs(raw, p / 2, q / 2, s / 2, r / 2);
  }

  lemma PhysicistIs(raw: Val, p: int, q: int, r: int, s: int)
    ensures Physicist(raw)([p, q, r, s]) == Spatial(raw, p, r, q, s)
  {
    hide Chemist;
    assert Exchange([p, q, r, s], 1, 2) == [p, r, q, s];
    PermutedRaw(raw, p, r, q, s);
  }

  /** The toy's energies: spin orbital p has the energy of its spatial orbital, occupied or virtual. */
  lemma ToyEnergiesAre(nspatial: nat, nocc: nat, raw: Val, eps: int -> real, p: int)
    requires nocc <= nspatial && 0 <= p < 2 * nspatial
    ensures var s := Toy(nspatial, nocc, raw, eps);
            && s.no + s.nv == 2 * nspatial && s.no == 2 * nocc
            && (if p < s.no then s.eo(p) else s.ev(p - s.no)) == eps(p / 2)
  {
  }

  /** Whatever the raw tensor, the spin-orbital integrals change sign under exchange of either index pair. */
  lemma ToyIntegralsAreFermionic(raw: Val)
    ensures Fermionic(Antisymmetrized(raw))
  {
    var g6 := SpinBlocked(Physicist(raw));
    PAntisymmetrizes(4, g6, 2, 3);
    forall x: seq<int> | |x| == 4
      ensures P(g6, 2, 3)(Exchange(x, 0, 1)) == -P(g6, 2, 3)(x)
    {
      var p, q, r, s := x[0], x[1], x[2], x[3];
      assert x == [p, q, r, s];
      assert Exchange(x, 0, 1) == [q, p, r, s] && Exchange([q, p, r, s], 2, 3) == [q, p, s, r];
      assert Exchange(x, 2, 3) == [p, q, s, r];
      PairExchange(raw, p, q, r, s);
      PairExchange(raw, p, q, s, r);
    }
  }

  lemma PairExchange(raw: Val, p: int, q: int, r: int, s: int)
    ensures SpinBlocked(Physicist(raw))([q, p, s, r]) == SpinBlocked(Physicist(raw))([p, q, r, s])
  {
    var a, b, c, d := p / 2, q / 2, r / 2, s / 2;
    assert Exchange([a, b, c, d], 1, 2) == [a, c, b, d] && Exchange([b, a, d, c], 1, 2) == [b, d, a, c];
    ChemistSymmetries(raw, a, c, b, d);
  }

  /** What the eleven blocks read: an occupied axis the same orbital, a virtual axis one past the occupied ones. */
  lemma BlocksRead(s: System, p: int, q: int, r: int, u: int)
    ensures s.Block("oovv")([p, q, r, u]) == s.g([p, q, s.no + r, s.no + u])
    ensures s.Block("vovv")([p, q, r, u]) == s.g([s.no + p, q, s.no + r, s.no + u])
    ensures s.Block("ooov")([p, q, r, u]) == s.g([p, q, r, s.no + u])
    ensures s.Block("oooo")([p, q, r, u]) == s.g([p, q, r, u])
    ensures s.Block("vvvv")([p, q, r, u]) == s.g([s.no + p, s.no + q, s.no + r, s.no + u])
    ensures s.Block("ovvo")([p, q, r, u]) == s.g([p, s.no + q, s.no + r, u])
    ensures s.Block("ovvv")([p, q, r, u]) == s.g([p, s.no + q, s.no + r, s.no + u])
    ensures s.Block("oovo")([p, q, r, u]) == s.g([p, q, s.no + r, u])
    ensures s.Block("ovov")([p, q, r, u]) == s.g([p, s.no + q, r, s.no + u])
    ensures s.Block("vvvo")([p, q, r, u]) == s.g([s.no + p, s.no + q, s.no + r, u])
    ensures s.Block("ovoo")([p, q, r, u]) == s.g([p, s.no + q, r, u])
  {
    var x := [p, q, r, u];
    assert s.Shift("oovv", x) == [p, q, s.no + r, s.no + u];
    assert s.Shift("vovv", x) == [s.no + p, q, s.no + r, s.no + u];
    assert s.Shift("ooov", x) == [p, q, r, s.no + u];
    assert s.Shift("oooo", x) == x;
    assert s.Shift("vvvv", x) == [s.no + p, s.no + q, s.no + r, s.no + u];
    assert s.Shift("ovvo", x) == [p, s.no + q, s.no + r, u];
    assert s.Shift("ovvv", x) == [p, s.no + q, s.no + r, s.no + u];
    assert s.Shift("oovo", x) == [p, q, s.no + r, u];
    assert s.Shift("ovov", x) == [p, s.no + q, r, s.no + u];
    assert s.Shift("vvvo", x) == [s.no + p, s.no + q, s.no + r, u];
    assert s.Shift("ovoo", x) == [p, s.no + q, r, u];
  }

  /** An index inside a block: each axis within the orbitals of its kind. */
  predicate InBlock(s: System, kinds: string, x: seq<int>) {
    && |kinds| == 4 == |x|
    && forall p | 0 <= p < 4 :: (kinds[p] == 'o' && 0 <= x[p] < s.no) || (kinds[p] == 'v' && 0 <= x[p] < s.nv)
  }

  /** Inside a block an occupied axis reads occupied orbitals and a virtual axis reads virtual ones. */
  lemma BlocksStayInside(s: System, kinds: string, x: seq<int>, p: nat)
    requires InBlock(s, kinds, x) && p < 4
    ensures kinds[p] == 'o' ==> 0 <= s.Shift(kinds, x)[p] < s.no
    ensures kinds[p] == 'v' ==> s.no <= s.Shift(kinds, x)[p] < s.no + s.nv
  {
  }

  /** The sixteen blocks hold every integral once. */
  lemma BlocksTile(s: System, y: seq<int>) returns (kinds: string, x: seq<int>)
    requires |y| == 4 && forall p | 0 <= p < 4 :: 0 <= y[p] < s.no + s.nv
    ensures InBlock(s, kinds, x) && s.Shift(kinds, x) == y && s.Block(kinds)(x) == s.g(y)
    ensures forall kinds', x' | InBlock(s, kinds', x') && s.Shift(kinds', x') == y :: kinds' == kinds && x' == x
  {
    kinds := seq(4, p requires 0 <= p < 4 => if y[p] < s.no then 'o' else 'v');
    x := seq(4, p requires 0 <= p < 4 => if y[p] < s.no then y[p] else y[p] - s.no);
    assert s.Shift(kinds, x) == y;
    forall kinds', x' | InBlock(s, kinds', x') && s.Shift(kinds', x') == y
      ensures kinds' == kinds && x' == x
    {
      forall p: nat | p < 4
        ensures kinds'[p] == kinds[p] && x'[p] == x[p]
      {
        BlocksStayInside(s, kinds', x', p);
      }
    }
  }

  /** A block inherits an antisymmetry of the integrals between two axes of one kind. */
  lemma BlockAntisym(s: System, kinds: string, p: nat, q: nat)
    requires |kinds| == 4 && p < 4 && q < 4 && kinds[p] == kinds[q] && Antisym(4, s.g, p, q)
    ensures Antisym(4, s.Block(kinds), p, q)
  {
    forall x: seq<int> | |x| == 4
      ensures s.Block(kinds)(Exchange(x, p, q)) == -s.Block(kinds)(x)
    {
      assert s.Shift(kinds, Exchange(x, p, q)) == Exchange(s.Shift(kinds, x), p, q);
    }
  }

  // ---- denominators --------------------------------------------------------------------------

  /** Every occupied energy lies below every virtual one. */
  ghost predicate Gapped(s: System) {
    forall i, a | 0 <= i < s.no && 0 <= a < s.nv :: s.eo(i) < s.ev(a)
  }

  ghost predicate SymmetricIn(rank: nat, d: Val, p: nat, q: nat) {
    forall x {:trigger d(Exchange(x, p, q))} | |x| == rank :: d(Exchange(x, p, q)) == d(x)
  }

  lemma DenominatorsSymmetric(s: System)
    ensures SymmetricIn(4, s.Dijab(), 0, 1) && SymmetricIn(4, s.Dijab(), 2, 3)
    ensures SymmetricIn(6, s.Dijkabc(), 0, 1) && SymmetricIn(6, s.Dijkabc(), 0, 2) && SymmetricIn(6, s.Dijkabc(), 1, 2)
    ensures SymmetricIn(6, s.Dijkabc(), 3, 4) && SymmetricIn(6, s.Dijkabc(), 3, 5) && SymmetricIn(6, s.Dijkabc(), 4, 5)
  {
  }

  lemma QuotientKeepsAntisymmetry(rank: nat, a: Val, d: Val, p: nat, q: nat)
    requires Antisym(rank, a, p, q) && SymmetricIn(rank, d, p, q)
    ensures Antisym(rank, Divide(a, d), p, q)
  {
    forall x: seq<int> | |x| == rank
      ensures Divide(a, d)(Exchange(x, p, q)) == -Divide(a, d)(x)
    {
      assert a(Exchange(x, p, q)) == -a(x) && d(Exchange(x, p, q)) == d(x);
      DivNegates(a(x), d(x));
    }
  }

  lemma DivNegates(a: real, d: real)
    ensures Div(-a, d) == -Div(a, d)
  {
  }

  /** The denominators are occupied energies less virtual ones, and with the gap all of them are negative. */
  lemma GapMakesDenominatorsNegative(s: System, i: int, j: int, k: int, a: int, b: int, c: int)
    requires Gapped(s)
    requires 0 <= i < s.no && 0 <= j < s.no && 0 <= k < s.no && 0 <= a < s.nv && 0 <= b < s.nv && 0 <= c < s.nv
    ensures s.Dia()([i, a]) == s.eo(i) - s.ev(a) < 0.0
    ensures s.Dijab()([i, j, a, b]) == s.eo(i) + s.eo(j) - s.ev(a) - s.ev(b) < 0.0
    ensures s.Dijkabc()([i, j, k, a, b, c]) == s.eo(i) + s.eo(j) + s.eo(k) - s.ev(a) - s.ev(b) - s.ev(c) < 0.0
  {
    assert s.eo(i) < s.ev(a) && s.eo(j) < s.ev(b) && s.eo(k) < s.ev(c);
  }
}
