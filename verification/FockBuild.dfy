/** The hand-written Fock build G = 2J - K over flat column-major arrays: the fused nest, the
    unfused two-pass nest, and the fused nest with its outer loop run in parallel. */
module FockBuild {
  import opened Sums
  import opened Division

  /** A flat buffer read at an offset. */
  function Cell(s: seq<real>, p: int): real { if 0 <= p < |s| then s[p] else 0.0 }

  /** TEI(mu, nu, lam, sig) and D(lam, sig) in column-major storage. */
  function Tei(n: nat, t: seq<real>, mu: int, nu: int, lam: int, sig: int): real {
    Cell(t, mu + nu * n + lam * (n * n) + sig * (n * n * n))
  }

  function Density(n: nat, d: seq<real>, lam: int, sig: int): real { Cell(d, lam + sig * n) }

  function Summand(n: nat, t: seq<real>, d: seq<real>, mu: int, nu: int): (int, int) -> real {
    (sig, lam) => (2.0 * Tei(n, t, mu, nu, lam, sig) - Tei(n, t, mu, lam, nu, sig)) * Density(n, d, lam, sig)
  }

  /** G(mu, nu) = sum over sigma and lambda of (2 TEI(mu, nu, lam, sig) - TEI(mu, lam, nu, sig)) D(lam, sig) */
  function Fock(n: nat, t: seq<real>, d: seq<real>, mu: int, nu: int): real {
    Sum2(0, n, 0, n, Summand(n, t, d, mu, nu))
  }

  /** The Coulomb part 2J and the exchange part K on their own. */
  function Coulomb(n: nat, t: seq<real>, d: seq<real>, mu: int, nu: int): (int, int) -> real {
    (sig, lam) => 2.0 * Density(n, d, lam, sig) * Tei(n, t, mu, nu, lam, sig)
  }

  function Exchange(n: nat, t: seq<real>, d: seq<real>, mu: int, nu: int): (int, int) -> real {
    (sig, lam) => Density(n, d, lam, sig) * Tei(n, t, mu, lam, nu, sig)
  }

  lemma TwoPasses(n: nat, t: seq<real>, d: seq<real>, mu: int, nu: int)
    ensures Fock(n, t, d, mu, nu)
         == Sum2(0, n, 0, n, Coulomb(n, t, d, mu, nu)) - Sum2(0, n, 0, n, Exchange(n, t, d, mu, nu))
  {
    hide Sum2, Cell;
    Sum2Linear(0, n, 0, n, 1.0, Coulomb(n, t, d, mu, nu), -1.0, Exchange(n, t, d, mu, nu), Summand(n, t, d, mu, nu));
  }

  // ---- offsets ----------------------------------------------------------------------------------

  lemma MulBound(a: int, b: int, n: int)
    requires 0 <= a < n && 0 <= b
    ensures 0 <= a * b && a * b + b <= n * b
  {
    assert (n - a - 1) * b >= 0;
    assert n * b == (n - a - 1) * b + a * b + b;
  }

  /** The column of four-index storage that starts at (0, b, c, d) lies inside the buffer. */
  lemma ColumnInBounds(n: int, b: int, c: int, d: int)
    requires 0 <= b < n && 0 <= c < n && 0 <= d < n
    ensures 0 <= b * n + c * (n * n) + d * (n * n * n)
    ensures b * n + c * (n * n) + d * (n * n * n) + n <= n * n * n * n
  {
    MulBound(b, n, n);
    MulBound(c, n * n, n);
    MulBound(n, 1, n + 1);
    assert n * n >= 0 && n * (n * n) == n * n * n && n * n * n >= 0;
    MulBound(d, n * n * n, n);
    assert n * (n * n * n) == n * n * n * n;
  }

  // ---- the serial nests ------------------------------------------------------------------------------

  /** The sizes that the three tensors of dimension n have; G shares no storage with the inputs. */
  ghost predicate Sized(n: nat, g: array<real>, t: array<real>, d: array<real>) {
    g.Length == n * n && d.Length == n * n && t.Length == n * n * n * n && g != t && g != d
  }

  /** Both contractions in one nest, or one pass for each. */
  datatype Pass = Fused | CoulombPass | ExchangePass

  /** What one turn adds to an element of G. */
  function Delta(pass: Pass, dj: real, tj: real, dk: real, tk: real): real {
    match pass
    case Fused => dj * tj - dk * tk
    case CoulombPass => dj * tj
    case ExchangePass => -(dk * tk)
  }

  /** The contribution of one (sigma, lambda) turn to G(mu, nu). */
  function Contribution(pass: Pass, n: nat, t: seq<real>, d: seq<real>, mu: int, nu: int): (int, int) -> real {
    (sig, lam) => Delta(pass, 2.0 * Density(n, d, lam, sig), Tei(n, t, mu, nu, lam, sig),
                        Density(n, d, lam, sig), Tei(n, t, mu, lam, nu, sig))
  }

  /** The innermost loop over mu: unit stride through one column of G and of the integrals. */
  method Accumulate(pass: Pass, n: nat, g: array<real>, gcol: nat, t: array<real>, dj: real, tj: nat, dk: real, tk: nat)
    requires g != t && gcol + n <= g.Length && tj + n <= t.Length && tk + n <= t.Length
    modifies g
    ensures forall p | 0 <= p < g.Length ::
              g[p] == old(g[p])
                + if gcol <= p < gcol + n then Delta(pass, dj, t[tj + p - gcol], dk, t[tk + p - gcol]) else 0.0
  {
    for mu := 0 to n
      invariant forall p | 0 <= p < g.Length ::
                  g[p] == old(g[p])
                    + if gcol <= p < gcol + mu then Delta(pass, dj, t[tj + p - gcol], dk, t[tk + p - gcol]) else 0.0
    {
      match pass {
        case Fused => g[gcol + mu] := g[gcol + mu] + (dj * t[tj + mu] - dk * t[tk + mu]);
        case CoulombPass => g[gcol + mu] := g[gcol + mu] + dj * t[tj + mu];
        case ExchangePass => g[gcol + mu] := g[gcol + mu] - dk * t[tk + mu];
      }
    }
  }

  method Clear(n: nat, g: array<real>, gcol: nat)
    requires gcol + n <= g.Length
    modifies g
    ensures forall p | 0 <= p < g.Length :: g[p] == if gcol <= p < gcol + n then 0.0 else old(g[p])
  {
    for mu := 0 to n
      invariant forall p | 0 <= p < g.Length :: g[p] == if gcol <= p < gcol + mu then 0.0 else old(g[p])
    {
      g[gcol + mu] := 0.0;
    }
  }

  /** One (sigma, lambda) turn of the nest for column nu; `c` is the offset of that column. */
  method Turn(pass: Pass, n: nat, g: array<real>, t: array<real>, d: array<real>, nu: nat, c: nat, sig: nat, lam: nat)
    requires Sized(n, g, t, d) && nu < n && sig < n && lam < n && c == nu * n && c + n <= n * n
    modifies g
    ensures forall p | 0 <= p < g.Length ::
              g[p] == old(g[p])
                + if c <= p < c + n then Contribution(pass, n, t[..], d[..], p - c, nu)(sig, lam) else 0.0
  {
    ColumnInBounds(n, nu, lam, sig);
    ColumnInBounds(n, lam, nu, sig);
    MulBound(sig, n, n);
    var dj := 2.0 * d[lam + sig * n];
    var dk := d[lam + sig * n];
    var tj := nu * n + lam * (n * n) + sig * (n * n * n);
    var tk := lam * n + nu * (n * n) + sig * (n * n * n);
    Accumulate(pass, n, g, c, t, dj, tj, dk, tk);
    forall mu | 0 <= mu < n
      ensures Delta(pass, dj, t[tj + mu], dk, t[tk + mu]) == Contribution(pass, n, t[..], d[..], mu, nu)(sig, lam)
    {
      TurnElement(n, t[..], d[..], mu, nu, sig, lam);
    }
  }

  lemma TurnElement(n: nat, t: seq<real>, d: seq<real>, mu: nat, nu: nat, sig: nat, lam: nat)
    requires |t| == n * n * n * n && |d| == n * n && mu < n && nu < n && sig < n && lam < n
    ensures 0 <= lam + sig * n < |d| && Density(n, d, lam, sig) == d[lam + sig * n]
    ensures var tj := nu * n + lam * (n * n) + sig * (n * n * n);
            0 <= tj + mu < |t| && Tei(n, t, mu, nu, lam, sig) == t[tj + mu]
    ensures var tk := lam * n + nu * (n * n) + sig * (n * n * n);
            0 <= tk + mu < |t| && Tei(n, t, mu, lam, nu, sig) == t[tk + mu]
  {
    ColumnInBounds(n, nu, lam, sig);
    ColumnInBounds(n, lam, nu, sig);
    MulBound(sig, n, n);
  }

  /** What a pass adds to G(mu, nu) in all. */
  function Total(pass: Pass, n: nat, t: seq<real>, d: seq<real>, mu: int, nu: int): real {
    Sum2(0, n, 0, n, Contribution(pass, n, t, d, mu, nu))
  }

  /** The rest of a pass over column nu, standing at (sigma, lambda). */
  function Rest(pass: Pass, n: nat, t: seq<real>, d: seq<real>, mu: int, nu: int, sig: int, lam: int): real {
    Sum(lam, n, At(Contribution(pass, n, t, d, mu, nu), sig))
      + Sum(sig + 1, n, Row(0, n, Contribution(pass, n, t, d, mu, nu)))
  }

  lemma RestSteps(pass: Pass, n: nat, t: seq<real>, d: seq<real>, mu: int, nu: int, sig: int, lam: int)
    requires 0 <= sig < n && 0 <= lam < n
    ensures Rest(pass, n, t, d, mu, nu, sig, lam)
         == Contribution(pass, n, t, d, mu, nu)(sig, lam) + Rest(pass, n, t, d, mu, nu, sig, lam + 1)
  {
  }

  lemma RestRows(pass: Pass, n: nat, t: seq<real>, d: seq<real>, mu: int, nu: int, sig: int)
    ensures Rest(pass, n, t, d, mu, nu, -1, n) == Total(pass, n, t, d, mu, nu)
    ensures sig + 1 < n ==> Rest(pass, n, t, d, mu, nu, sig, n) == Rest(pass, n, t, d, mu, nu, sig + 1, 0)
    ensures Rest(pass, n, t, d, mu, nu, n - 1, n) == 0.0
  {
  }

  /** All (sigma, lambda) turns for column nu add the whole contraction to it and leave the rest of G alone. */
  method Column(pass: Pass, n: nat, g: array<real>, t: array<real>, d: array<real>, nu: nat, c: nat)
    requires Sized(n, g, t, d) && nu < n && c == nu * n && c + n <= n * n
    modifies g
    ensures forall p | 0 <= p < g.Length ::
              g[p] == old(g[p]) + if c <= p < c + n then Total(pass, n, t[..], d[..], p - c, nu) else 0.0
  {
    hide Contribution, Rest, Total;
    ghost var ts, ds := t[..], d[..];
    forall mu { RestRows(pass, n, ts, ds, mu, nu, 0); }
    for sig := 0 to n
      invariant t[..] == ts && d[..] == ds
      invariant forall p | 0 <= p < g.Length ::
                  g[p] == old(g[p]) + if c <= p < c + n then
                                        Total(pass, n, ts, ds, p - c, nu)
                                        - Rest(pass, n, ts, ds, p - c, nu, sig - 1, n)
                                      else 0.0
    {
      forall mu { RestRows(pass, n, ts, ds, mu, nu, sig - 1); }
      for lam := 0 to n
        invariant t[..] == ts && d[..] == ds
        invariant forall p | 0 <= p < g.Length ::
                    g[p] == old(g[p]) + if c <= p < c + n then
                                          Total(pass, n, ts, ds, p - c, nu)
                                          - Rest(pass, n, ts, ds, p - c, nu, sig, lam)
                                        else 0.0
      {
        forall mu { RestSteps(pass, n, ts, ds, mu, nu, sig, lam); }
        Turn(pass, n, g, t, d, nu, c, sig, lam);
      }
    }
  }

  lemma FusedTotal(n: nat, t: seq<real>, d: seq<real>, mu: int, nu: int)
    ensures Total(Fused, n, t, d, mu, nu) == Fock(n, t, d, mu, nu)
  {
    hide Sum2, Cell;
    Sum2Scale(0, n, 0, n, 1.0, Contribution(Fused, n, t, d, mu, nu), Summand(n, t, d, mu, nu));
  }

  lemma UnfusedTotal(n: nat, t: seq<real>, d: seq<real>, mu: int, nu: int)
    ensures Total(CoulombPass, n, t, d, mu, nu) + Total(ExchangePass, n, t, d, mu, nu) == Fock(n, t, d, mu, nu)
  {
    hide Sum2, Cell;
    TwoPasses(n, t, d, mu, nu);
    Sum2Scale(0, n, 0, n, 1.0, Contribution(CoulombPass, n, t, d, mu, nu), Coulomb(n, t, d, mu, nu));
    Sum2Scale(0, n, 0, n, -1.0, Contribution(ExchangePass, n, t, d, mu, nu), Exchange(n, t, d, mu, nu));
  }

  /** G(mu, nu) as stored. */
  function Entry(n: nat, g: seq<real>, mu: int, nu: int): real { Cell(g, mu + nu * n) }

  /** Element (mu, nu) lies inside the buffer, and in column m exactly when nu is m. */
  lemma EntryOffset(n: nat, mu: nat, nu: nat, m: nat)
    requires mu < n && nu < n && m < n
    ensures 0 <= mu + nu * n < n * n && 0 <= m * n && m * n + n <= n * n
    ensures m * n <= mu + nu * n < m * n + n <==> nu == m
  {
    MulBound(nu, n, n);
    MulBound(m, n, n);
    if nu < m {
      MulBound(nu, n, m);
    } else if m < nu {
      MulBound(m, n, nu);
    }
  }

  /** A whole column update, seen by element. */
  lemma ColumnUpdate(n: nat, before: seq<real>, after: seq<real>, m: nat, mu: nat, nu: nat, update: int -> real)
    requires |before| == |after| == n * n && mu < n && nu < n && m < n
    requires forall p | 0 <= p < n * n ::
               after[p] == before[p] + if m * n <= p < m * n + n then update(p - m * n) else 0.0
    ensures Entry(n, after, mu, nu) == Entry(n, before, mu, nu) + if nu == m then update(mu) else 0.0
  {
    EntryOffset(n, mu, nu, m);
  }

  lemma ColumnCleared(n: nat, before: seq<real>, after: seq<real>, m: nat, mu: nat, nu: nat)
    requires |before| == |after| == n * n && mu < n && nu < n && m < n
    requires forall p | 0 <= p < n * n :: after[p] == if m * n <= p < m * n + n then 0.0 else before[p]
    ensures Entry(n, after, mu, nu) == if nu == m then 0.0 else Entry(n, before, mu, nu)
  {
    EntryOffset(n, mu, nu, m);
  }

  method ClearColumn(n: nat, g: array<real>, nu: nat)
    requires g.Length == n * n && nu < n
    modifies g
    ensures forall mu, m | 0 <= mu < n && 0 <= m < n ::
              Entry(n, g[..], mu, m) == if m == nu then 0.0 else old(Entry(n, g[..], mu, m))
  {
    ghost var before := g[..];
    MulBound(nu, n, n);
    Clear(n, g, nu * n);
    forall mu, m | 0 <= mu < n && 0 <= m < n
      ensures Entry(n, g[..], mu, m) == if m == nu then 0.0 else Entry(n, before, mu, m)
    {
      ColumnCleared(n, before, g[..], nu, mu, m);
    }
  }

  method AddColumn(pass: Pass, n: nat, g: array<real>, t: array<real>, d: array<real>, nu: nat)
    requires Sized(n, g, t, d) && nu < n
    modifies g
    ensures forall mu, m | 0 <= mu < n && 0 <= m < n ::
              Entry(n, g[..], mu, m) == old(Entry(n, g[..], mu, m)) + if m
                == nu then Total(pass, n, t[..], d[..], mu, nu) else 0.0
  {
    hide Total;
    ghost var before, ts, ds := g[..], t[..], d[..];
    MulBound(nu, n, n);
    Column(pass, n, g, t, d, nu, nu * n);
    ghost var update := mu => Total(pass, n, ts, ds, mu, nu);
    forall mu, m | 0 <= mu < n && 0 <= m < n
      ensures Entry(n, g[..], mu, m) == Entry(n, before, mu, m) + if m == nu then update(mu) else 0.0
    {
      ColumnUpdate(n, before, g[..], nu, mu, m, update);
    }
  }

  /** The fused nest, run serially: the whole of G for every n, with every offset in bounds. */
  method ForLoop(n: nat, g: array<real>, t: array<real>, d: array<real>)
    requires Sized(n, g, t, d)
    modifies g
    ensures forall mu, nu | 0 <= mu < n && 0 <= nu < n :: Entry(n, g[..], mu, nu) == Fock(n, t[..], d[..], mu, nu)
  {
    hide Fock, Entry, Total;
    ghost var ts, ds := t[..], d[..];
    for nu := 0 to n
      invariant t[..] == ts && d[..] == ds
      invariant forall mu, m | 0 <= mu < n && 0 <= m < nu :: Entry(n, g[..], mu, m) == Fock(n, ts, ds, mu, m)
    {
      ClearColumn(n, g, nu);
      AddColumn(Fused, n, g, t, d, nu);
      forall mu { FusedTotal(n, ts, ds, mu, nu); }
    }
  }

  /** The unfused translation: a full Coulomb pass, then a full exchange pass. */
  method Unfused(n: nat, g: array<real>, t: array<real>, d: array<real>)
    requires Sized(n, g, t, d)
    modifies g
    ensures forall mu, nu | 0 <= mu < n && 0 <= nu < n :: Entry(n, g[..], mu, nu) == Fock(n, t[..], d[..], mu, nu)
  {
    hide Fock, Entry, Total;
    ghost var ts, ds := t[..], d[..];
    for nu := 0 to n
      invariant t[..] == ts && d[..] == ds
      invariant forall mu, m | 0 <= mu < n &&
                0 <= m < nu :: Entry(n, g[..], mu, m) == Total(CoulombPass, n, ts, ds, mu, m)
    {
      ClearColumn(n, g, nu);
      AddColumn(CoulombPass, n, g, t, d, nu);
    }
    for nu := 0 to n
      invariant t[..] == ts && d[..] == ds
      invariant forall mu, m | 0 <= mu < n && 0 <= m < n ::
                  Entry(n, g[..], mu, m)
                    == if m < nu then Fock(n, ts, ds, mu, m) else Total(CoulombPass, n, ts, ds, mu, m)
    {
      AddColumn(ExchangePass, n, g, t, d, nu);
      forall mu { UnfusedTotal(n, ts, ds, mu, nu); }
    }
  }

  // ---- the matrix itself ------------------------------------------------------------------------------

  /** The places of the integrals (pq|rs), of D(p, q) and of G(p, q) in their flat arrays. */
  lemma TeiIs(n: nat, t: seq<real>, p: nat, q: nat, r: nat, s: nat, place: int)
    requires |t| == n * n * n * n && p < n && q < n && r < n && s < n
    requires place == q * n + r * (n * n) + s * (n * n * n) + p
    ensures 0 <= place < |t| && Tei(n, t, p, q, r, s) == t[place]
  {
    ColumnInBounds(n, q, r, s);
  }

  lemma DensityIs(n: nat, d: seq<real>, p: nat, q: nat, place: int)
    requires |d| == n * n && p < n && q < n && place == p + q * n
    ensures 0 <= place < |d| && Density(n, d, p, q) == d[place]
  {
    MulBound(q, n, n);
  }

  lemma EntryIs(n: nat, g: seq<real>, mu: nat, nu: nat)
    requires |g| == n * n && mu < n && nu < n
    ensures 0 <= mu + nu * n < |g| && Entry(n, g, mu, nu) == g[mu + nu * n]
  {
    EntryOffset(n, mu, nu, nu);
  }

  /** A summand is twice the direct integral less the exchanged one, times the density. */
  lemma SummandIs(n: nat, t: seq<real>, d: seq<real>, mu: int, nu: int, sig: int, lam: int, x: real, y: real, z: real)
    requires Tei(n, t, mu, nu, lam, sig) == x && Tei(n, t, mu, lam, nu, sig) == y && Density(n, d, lam, sig) == z
    ensures Summand(n, t, d, mu, nu)(sig, lam) == 2.0 * x * z - y * z
  {
    hide Tei, Density;
  }

  /** One basis function: twice the integral less the integral. */
  lemma FockOfOne(t: seq<real>, d: seq<real>)
    requires |t| == 1 == |d|
    ensures Fock(1, t, d, 0, 0) == t[0] * d[0]
  {
    var f := Summand(1, t, d, 0, 0);
    SumLast(0, 0, Row(0, 1, f));
    SumLast(0, 0, At(f, 0));
  }

  /** The symmetries of real integrals that the matrix needs: within the first pair, and between the pairs. */
  ghost predicate RealIntegrals(n: nat, t: seq<real>) {
    forall p, q, r, s | 0 <= p < n && 0 <= q < n && 0 <= r < n && 0 <= s < n ::
      Tei(n, t, p, q, r, s) == Tei(n, t, q, p, r, s) && Tei(n, t, p, q, r, s) == Tei(n, t, r, s, p, q)
  }

  ghost predicate SymmetricDensity(n: nat, d: seq<real>) {
    forall p, q | 0 <= p < n && 0 <= q < n :: Density(n, d, p, q) == Density(n, d, q, p)
  }

  /** With real integrals and a symmetric density the matrix is symmetric, although Coulomb and exchange terms read the
      integrals in different orders. */
  lemma FockIsSymmetric(n: nat, t: seq<real>, d: seq<real>, mu: int, nu: int)
    requires RealIntegrals(n, t) && SymmetricDensity(n, d) && 0 <= mu < n && 0 <= nu < n
    ensures Fock(n, t, d, mu, nu) == Fock(n, t, d, nu, mu)
  {
    hide Sum2, Tei, Density, Fock;
    TwoPasses(n, t, d, mu, nu);
    TwoPasses(n, t, d, nu, mu);
    Sum2Scale(0, n, 0, n, 1.0, Coulomb(n, t, d, mu, nu), Coulomb(n, t, d, nu, mu));
    var x, y := Exchange(n, t, d, mu, nu), Exchange(n, t, d, nu, mu);
    forall sig, lam | 0 <= sig < n && 0 <= lam < n
      ensures y(sig, lam) == 1.0 * Flip(x)(sig, lam)
    {
      assert Tei(n, t, nu, lam, mu, sig) == Tei(n, t, mu, sig, nu, lam);
      assert Density(n, d, lam, sig) == Density(n, d, sig, lam);
    }
    Sum2Scale(0, n, 0, n, 1.0, y, Flip(x));
    Sum2Swap(0, n, 0, n, x);
  }

  // ---- the parallel outer loop ------------------------------------------------------------------------

  /** One iteration of the outer loop is a thread.  Its program counter counts element writes: n clears,
      then n * n * n accumulations, the innermost index mu running fastest. */
  datatype Machine = Machine(g: seq<real>, pc: seq<nat>)

  function Steps(n: nat): nat { n + n * n * n }

  /** The element that a thread's next write goes to. */
  function Target(n: nat, pc: nat): (mu: nat)
    requires n > 0
    ensures mu < n
  {
    if pc < n then pc else (pc - n) % n
  }

  /** Thread nu's next write: it loads, computes and stores one element of its column. */
  function Step(n: nat, t: seq<real>, d: seq<real>, s: Machine, nu: nat): (r: Machine)
    requires n > 0 && |s.g| == n * n && |s.pc| == n && nu < n
    ensures |r.g| == n * n && |r.pc| == n
  {
    var pc := s.pc[nu];
    if pc >= Steps(n) then s
    else
      var mu := Target(n, pc);
      EntryOffset(n, mu, nu, nu);
      var value := if pc < n then 0.0 else Entry(n, s.g, mu, nu) + Flat(n, t, d, mu, nu)((pc - n) / n);
      Machine(s.g[mu + nu * n := value], s.pc[nu := pc + 1])
  }

  /** The k-th (sigma, lambda) turn: lambda runs fastest. */
  function Flat(n: nat, t: seq<real>, d: seq<real>, mu: int, nu: int): int -> real
    requires n > 0
  {
    k => Contribution(Fused, n, t, d, mu, nu)(k / n, k % n)
  }

  /** How many accumulations element mu of a column has received when its thread stands at pc. */
  function Turns(n: nat, pc: nat, mu: nat): nat
    requires n > 0
  {
    if pc < n then 0 else (pc - n) / n + if mu < (pc - n) % n then 1 else 0
  }

  /** What element (mu, nu) holds once its own thread stands at pc, and only that. */
  function Held(n: nat, t: seq<real>, d: seq<real>, g0: seq<real>, pc: nat, mu: nat, nu: nat): real
    requires n > 0
  {
    if pc <= mu then Entry(n, g0, mu, nu) else Sum(0, Turns(n, pc, mu), Flat(n, t, d, mu, nu))
  }

  /** Any interleaving: a schedule names the thread that makes each next write. */
  function Run(n: nat, t: seq<real>, d: seq<real>, s: Machine, schedule: seq<nat>): (r: Machine)
    requires n > 0 && |s.g| == n * n && |s.pc| == n && forall i | 0 <= i < |schedule| :: schedule[i] < n
    ensures |r.g| == n * n && |r.pc| == n
    decreases |schedule|
  {
    if |schedule| == 0 then s else Run(n, t, d, Step(n, t, d, s, schedule[0]), schedule[1..])
  }

  ghost predicate Consistent(n: nat, t: seq<real>, d: seq<real>, g0: seq<real>, s: Machine)
    requires n > 0
  {
    && |s.g| == n * n && |s.pc| == n
    && (forall nu | 0 <= nu < n :: s.pc[nu] <= Steps(n))
    && forall mu, nu | 0 <= mu < n && 0 <= nu < n :: Entry(n, s.g, mu, nu) == Held(n, t, d, g0, s.pc[nu], mu, nu)
  }

  lemma TurnsStep(n: nat, pc: nat, mu: nat)
    requires n > 0 && mu < n
    ensures pc < n ==> Turns(n, pc + 1, mu) == 0
    ensures pc >= n ==> Turns(n, pc + 1, mu) == Turns(n, pc, mu) + if (pc - n) % n == mu then 1 else 0
    ensures pc >= n && (pc - n) % n == mu ==> Turns(n, pc, mu) == (pc - n) / n
  {
    if pc >= n {
      NextTurn(n, pc - n);
    }
  }

  lemma NextTurn(n: nat, s: nat)
    requires n > 0
    ensures s % n + 1 < n ==> (s + 1) / n == s / n && (s + 1) % n == s % n + 1
    ensures s % n + 1 == n ==> (s + 1) / n == s / n + 1 && (s + 1) % n == 0
  {
    var q, r := s / n, s % n;
    assert s == q * n + r;
    if r + 1 < n {
      DivRemainder(q, r + 1, n);
    } else {
      assert (q + 1) * n + 0 == s + 1;
      DivRemainder(q + 1, 0, n);
    }
  }

  lemma HeldStep(n: nat, t: seq<real>, d: seq<real>, g0: seq<real>, pc: nat, mu: nat, nu: nat)
    requires n > 0 && mu < n
    ensures Held(n, t, d, g0, pc + 1, mu, nu) ==
            if mu != Target(n, pc) then Held(n, t, d, g0, pc, mu, nu)
            else if pc < n then 0.0
            else Held(n, t, d, g0, pc, mu, nu) + Flat(n, t, d, mu, nu)((pc - n) / n)
  {
    hide Flat;
    TurnsStep(n, pc, mu);
    if pc >= n && (pc - n) % n == mu {
      SumLast(0, (pc - n) / n, Flat(n, t, d, mu, nu));
    }
  }

  /** A store changes one element. */
  lemma StoredEntry(n: nat, g: seq<real>, mu: nat, nu: nat, value: real, mu': nat, nu': nat)
    requires |g| == n * n && mu < n && nu < n && mu' < n && nu' < n
    requires 0 <= mu + nu * n < n * n
    ensures Entry(n, g[mu + nu * n := value], mu', nu') == if mu' == mu &&
            nu' == nu then value else Entry(n, g, mu', nu')
  {
    EntryOffset(n, mu', nu', nu);
    EntryOffset(n, mu, nu, nu);
  }

  lemma StepConsistent(n: nat, t: seq<real>, d: seq<real>, g0: seq<real>, s: Machine, m: nat)
    requires n > 0 && m < n && Consistent(n, t, d, g0, s)
    ensures Consistent(n, t, d, g0, Step(n, t, d, s, m))
  {
    hide Held, Flat, Entry, Target;
    var pc := s.pc[m];
    var r := Step(n, t, d, s, m);
    if pc < Steps(n) {
      var target := Target(n, pc);
      EntryOffset(n, target, m, m);
      forall mu, nu | 0 <= mu < n && 0 <= nu < n
        ensures Entry(n, r.g, mu, nu) == Held(n, t, d, g0, r.pc[nu], mu, nu)
      {
        StoredEntry(n, s.g, target, m, if pc < n then 0.0
                                       else Entry(n, s.g, target, m) + Flat(n, t, d, target, m)((pc - n) / n), mu, nu);
        HeldStep(n, t, d, g0, pc, mu, m);
      }
    }
  }

  lemma {:induction false} RunConsistent(n: nat, t: seq<real>, d: seq<real>, g0: seq<real>, s: Machine,
                                         schedule: seq<nat>)
    requires n > 0 && Consistent(n, t, d, g0, s) && forall i | 0 <= i < |schedule| :: schedule[i] < n
    ensures Consistent(n, t, d, g0, Run(n, t, d, s, schedule))
    decreases |schedule|
  {
    if |schedule| > 0 {
      StepConsistent(n, t, d, g0, s, schedule[0]);
      RunConsistent(n, t, d, g0, Step(n, t, d, s, schedule[0]), schedule[1..]);
    }
  }

  /** k rows of n turns each are k * n turns. */
  lemma {:induction false} FlatRows(n: nat, t: seq<real>, d: seq<real>, mu: int, nu: int, sig: nat)
    requires n > 0 && sig <= n
    ensures Sum(sig * n, n * n, Flat(n, t, d, mu, nu)) == Sum(sig, n, Row(0, n, Contribution(Fused, n, t, d, mu, nu)))
    decreases n - sig
  {
    hide Contribution, Flat, Sum;
    var f, g := Flat(n, t, d, mu, nu), Row(0, n, Contribution(Fused, n, t, d, mu, nu));
    if sig < n {
      FlatRows(n, t, d, mu, nu, sig + 1);
      FlatRow(n, t, d, mu, nu, sig, 0);
      assert sig * n + 0 == sig * n && (sig + 1) * n == sig * n + n;
      SumHead(sig, n, g);
    } else {
      assert sig * n == n * n;
      SumNone(n * n, f);
      SumNone(n, g);
    }
  }

  lemma SumHead(i: int, n: int, f: int -> real)
    requires i < n
    ensures Sum(i, n, f) == f(i) + Sum(i + 1, n, f)
  {
  }

  lemma SumNone(n: int, f: int -> real)
    ensures Sum(n, n, f) == 0.0
  {
  }

  lemma {:induction false} FlatRow(n: nat, t: seq<real>, d: seq<real>, mu: int, nu: int, sig: nat, lam: nat)
    requires n > 0 && sig < n && lam <= n
    ensures Sum(sig * n + lam, n * n, Flat(n, t, d, mu, nu))
         == Sum(lam, n, At(Contribution(Fused, n, t, d, mu, nu), sig)) + Sum(sig * n + n, n * n, Flat(n, t, d, mu, nu))
    decreases n - lam
  {
    hide Contribution;
    if lam < n {
      MulBound(sig, n, n);
      DivRemainder(sig, lam, n);
      FlatRow(n, t, d, mu, nu, sig, lam + 1);
    }
  }

  /** Whatever the schedule, once every thread has finished, G is the Fock matrix, as the serial nest builds it. */
  lemma EveryScheduleBuildsG(n: nat, t: seq<real>, d: seq<real>, g0: seq<real>, schedule: seq<nat>, mu: nat, nu: nat)
    requires n > 0 && |g0| == n * n && forall i | 0 <= i < |schedule| :: schedule[i] < n
    requires mu < n && nu < n
    requires var r := Run(n, t, d, Machine(g0, seq(n, _ => 0)), schedule); forall m | 0 <= m < n :: r.pc[m] == Steps(n)
    ensures Entry(n, Run(n, t, d, Machine(g0, seq(n, _ => 0)), schedule).g, mu, nu) == Fock(n, t, d, mu, nu)
  {
    var s := Machine(g0, seq(n, _ => 0));
    RunConsistent(n, t, d, g0, s, schedule);
    FinishedColumn(n, t, d, g0, mu, nu);
  }

  lemma FinishedColumn(n: nat, t: seq<real>, d: seq<real>, g0: seq<real>, mu: nat, nu: nat)
    requires n > 0 && mu < n
    ensures Held(n, t, d, g0, Steps(n), mu, nu) == Fock(n, t, d, mu, nu)
  {
    hide Contribution, Flat;
    DivRemainder(n * n, 0, n);
    assert n * n * n == (n * n) * n + 0;
    assert Turns(n, Steps(n), mu) == n * n;
    FlatRows(n, t, d, mu, nu, 0);
    FusedTotal(n, t, d, mu, nu);
  }
}
