/** The spin-orbital CCSD equations written out: nested sums of products of amplitudes and integrals <pq||rs>, with no
    intermediate and no label string.  Virtual orbital a is spin orbital no + a of the integrals. */
module CcsdEquations {
  import opened Sums
  import opened BoxSums
  import opened Einsum
  import opened SpinOrbital
  import opened Ccsd

  // ---- singles --------------------------------------------------------------------------------

  function Singles1(s: System, t: Amps, i: int, a: int): Triple {
    (e, m, f) => t.t1([i, e]) * t.t1([m, f]) * s.g([s.no + a, m, s.no + e, s.no + f])
  }

  function Singles2(s: System, t: Amps, i: int, a: int): Quad {
    (e, m, n, f) => t.t1([i, e]) * t.t2([m, n, a, f]) * s.g([m, n, s.no + e, s.no + f])
  }

  function Singles3(s: System, t: Amps, i: int, a: int): Triple {
    (m, n, e) => t.t1([m, a]) * t.t1([n, e]) * s.g([m, n, i, s.no + e])
  }

  function Singles4(s: System, t: Amps, i: int, a: int): Quad {
    (m, n, e, f) => t.t1([m, a]) * t.t2([i, n, e, f]) * s.g([m, n, s.no + e, s.no + f])
  }

  function Singles5(s: System, t: Amps, i: int, a: int): Quad {
    (m, n, e, f) => t.t1([m, a]) * t.t1([i, e]) * t.t1([n, f]) * s.g([m, n, s.no + e, s.no + f])
  }

  function Singles6(s: System, t: Amps, i: int, a: int): Quad {
    (m, e, n, f) => t.t2([i, m, a, e]) * t.t1([n, f]) * s.g([m, n, s.no + e, s.no + f])
  }

  function Singles7(s: System, t: Amps, i: int, a: int): Pair {
    (n, f) => t.t1([n, f]) * s.g([n, s.no + a, i, s.no + f])
  }

  function Singles8(s: System, t: Amps, i: int, a: int): Triple {
    (m, e, f) => t.t2([i, m, e, f]) * s.g([m, s.no + a, s.no + e, s.no + f])
  }

  function Singles9(s: System, t: Amps, i: int, a: int): Triple {
    (m, n, e) => t.t2([m, n, a, e]) * s.g([n, m, s.no + e, i])
  }

  /** (e_i - e_a) times the new singles. */
  function SinglesEquation(s: System, t: Amps, i: int, a: int): real {
    var o, v := s.no, s.nv;
    Box3(v, o, v, Singles1(s, t, i, a)) - 0.5 * Box4(v, o, o, v, Singles2(s, t, i, a))
    - Box3(o, o, v, Singles3(s, t, i, a)) - 0.5 * Box4(o, o, v, v, Singles4(s, t, i, a))
    - Box4(o, o, v, v, Singles5(s, t, i, a)) + Box4(o, v, o, v, Singles6(s, t, i, a))
    - Box2(o, v, Singles7(s, t, i, a)) - 0.5 * Box3(o, v, v, Singles8(s, t, i, a))
    - 0.5 * Box3(o, o, v, Singles9(s, t, i, a))
  }

  // ---- doubles: terms that are written once ---------------------------------------------------

  function Plain1(s: System, t: Amps, i: int, j: int, a: int, b: int): Pair {
    (m, n) => t.t2([m, n, a, b]) * s.g([m, n, i, j])
  }

  function Plain2(s: System, t: Amps, i: int, j: int, a: int, b: int): Pair {
    (m, n) => t.t1([m, a]) * t.t1([n, b]) * s.g([m, n, i, j])
  }

  function Plain3(s: System, t: Amps, i: int, j: int, a: int, b: int): Pair {
    (e, f) => t.t2([i, j, e, f]) * s.g([s.no + a, s.no + b, s.no + e, s.no + f])
  }

  function Plain4(s: System, t: Amps, i: int, j: int, a: int, b: int): Pair {
    (e, f) => t.t1([i, e]) * t.t1([j, f]) * s.g([s.no + a, s.no + b, s.no + e, s.no + f])
  }

  function Plain5(s: System, t: Amps, i: int, j: int, a: int, b: int): Quad {
    (m, n, e, f) => t.t2([m, n, a, b]) * t.t2([i, j, e, f]) * s.g([m, n, s.no + e, s.no + f])
  }

  function Plain6(s: System, t: Amps, i: int, j: int, a: int, b: int): Quad {
    (m, n, e, f) => t.t2([m, n, a, b]) * t.t1([i, e]) * t.t1([j, f]) * s.g([m, n, s.no + e, s.no + f])
  }

  function Plain7(s: System, t: Amps, i: int, j: int, a: int, b: int): Quad {
    (m, n, e, f) => t.t1([m, a]) * t.t1([n, b]) * t.t2([i, j, e, f]) * s.g([m, n, s.no + e, s.no + f])
  }

  function Plain8(s: System, t: Amps, i: int, j: int, a: int, b: int): Quad {
    (m, n, e, f) => t.t1([m, a]) * t.t1([n, b]) * t.t1([i, e]) * t.t1([j, f]) * s.g([m, n, s.no + e, s.no + f])
  }

  function PlainTerms(s: System, t: Amps, i: int, j: int, a: int, b: int): real {
    var o, v := s.no, s.nv;
    s.g([i, j, s.no + a, s.no + b])
    + 0.5 * Box2(o, o, Plain1(s, t, i, j, a, b)) + Box2(o, o, Plain2(s, t, i, j, a, b))
    + 0.5 * Box2(v, v, Plain3(s, t, i, j, a, b)) + Box2(v, v, Plain4(s, t, i, j, a, b))
    + 0.25 * Box4(o, o, v, v, Plain5(s, t, i, j, a, b)) + 0.5 * Box4(o, o, v, v, Plain6(s, t, i, j, a, b))
    + 0.5 * Box4(o, o, v, v, Plain7(s, t, i, j, a, b)) + Box4(o, o, v, v, Plain8(s, t, i, j, a, b))
  }

  // ---- doubles: terms that are antisymmetrized over a, b --------------------------------------

  function Virtual1(s: System, t: Amps, i: int, j: int, a: int, b: int): Triple {
    (e, m, f) => t.t2([i, j, a, e]) * t.t1([m, f]) * s.g([s.no + b, m, s.no + e, s.no + f])
  }

  function Virtual2(s: System, t: Amps, i: int, j: int, a: int, b: int): Quad {
    (e, m, n, f) => t.t2([i, j, a, e]) * t.t2([m, n, b, f]) * s.g([m, n, s.no + e, s.no + f])
  }

  function Virtual3(s: System, t: Amps, i: int, j: int, a: int, b: int): Quad {
    (e, m, n, f) => t.t2([i, j, a, e]) * t.t1([m, b]) * t.t1([n, f]) * s.g([m, n, s.no + e, s.no + f])
  }

  function Virtual4(s: System, t: Amps, i: int, j: int, a: int, b: int): Triple {
    (e, f, m) => t.t2([i, j, e, f]) * t.t1([m, b]) * s.g([s.no + a, m, s.no + e, s.no + f])
  }

  function Virtual5(s: System, t: Amps, i: int, j: int, a: int, b: int): Triple {
    (e, f, m) => t.t1([i, e]) * t.t1([j, f]) * t.t1([m, b]) * s.g([s.no + a, m, s.no + e, s.no + f])
  }

  function Virtual6(s: System, t: Amps, i: int, j: int, a: int, b: int): int -> real {
    m => t.t1([m, a]) * s.g([m, s.no + b, i, j])
  }

  function VirtualTerms(s: System, t: Amps, i: int, j: int, a: int, b: int): real {
    var o, v := s.no, s.nv;
    Box3(v, o, v, Virtual1(s, t, i, j, a, b)) - 0.5 * Box4(v, o, o, v, Virtual2(s, t, i, j, a, b))
    - Box4(v, o, o, v, Virtual3(s, t, i, j, a, b)) - 0.5 * Box3(v, v, o, Virtual4(s, t, i, j, a, b))
    - Box3(v, v, o, Virtual5(s, t, i, j, a, b)) - Sum(0, o, Virtual6(s, t, i, j, a, b))
  }

  // ---- doubles: terms that are antisymmetrized over i, j --------------------------------------

  function Occupied1(s: System, t: Amps, i: int, j: int, a: int, b: int): Triple {
    (m, n, e) => t.t2([i, m, a, b]) * t.t1([n, e]) * s.g([m, n, j, s.no + e])
  }

  function Occupied2(s: System, t: Amps, i: int, j: int, a: int, b: int): Quad {
    (m, n, e, f) => t.t2([i, m, a, b]) * t.t2([j, n, e, f]) * s.g([m, n, s.no + e, s.no + f])
  }

  function Occupied3(s: System, t: Amps, i: int, j: int, a: int, b: int): Quad {
    (m, n, e, f) => t.t2([i, m, a, b]) * t.t1([j, e]) * t.t1([n, f]) * s.g([m, n, s.no + e, s.no + f])
  }

  function Occupied4(s: System, t: Amps, i: int, j: int, a: int, b: int): Triple {
    (m, n, e) => t.t2([m, n, a, b]) * t.t1([j, e]) * s.g([m, n, i, s.no + e])
  }

  function Occupied5(s: System, t: Amps, i: int, j: int, a: int, b: int): Triple {
    (m, n, e) => t.t1([m, a]) * t.t1([n, b]) * t.t1([j, e]) * s.g([m, n, i, s.no + e])
  }

  function Occupied6(s: System, t: Amps, i: int, j: int, a: int, b: int): int -> real {
    e => t.t1([i, e]) * s.g([s.no + a, s.no + b, s.no + e, j])
  }

  function OccupiedTerms(s: System, t: Amps, i: int, j: int, a: int, b: int): real {
    var o, v := s.no, s.nv;
    0.5 * Box3(o, o, v, Occupied4(s, t, i, j, a, b)) - Box3(o, o, v, Occupied1(s, t, i, j, a, b))
    - 0.5 * Box4(o, o, v, v, Occupied2(s, t, i, j, a, b)) - Box4(o, o, v, v, Occupied3(s, t, i, j, a, b))
    + Box3(o, o, v, Occupied5(s, t, i, j, a, b)) + Sum(0, v, Occupied6(s, t, i, j, a, b))
  }

  // ---- doubles: terms that are antisymmetrized over both pairs --------------------------------

  function Ring1(s: System, t: Amps, i: int, j: int, a: int, b: int): Pair {
    (m, e) => t.t2([i, m, a, e]) * s.g([m, s.no + b, s.no + e, j])
  }

  function Ring2(s: System, t: Amps, i: int, j: int, a: int, b: int): Triple {
    (m, e, f) => t.t2([i, m, a, e]) * t.t1([j, f]) * s.g([m, s.no + b, s.no + e, s.no + f])
  }

  function Ring3(s: System, t: Amps, i: int, j: int, a: int, b: int): Triple {
    (m, e, n) => t.t2([i, m, a, e]) * t.t1([n, b]) * s.g([m, n, s.no + e, j])
  }

  function Ring4(s: System, t: Amps, i: int, j: int, a: int, b: int): Quad {
    (m, e, n, f) => t.t2([i, m, a, e]) * t.t2([j, n, f, b]) * s.g([m, n, s.no + e, s.no + f])
  }

  function Ring5(s: System, t: Amps, i: int, j: int, a: int, b: int): Quad {
    (m, e, n, f) => t.t2([i, m, a, e]) * t.t1([j, f]) * t.t1([n, b]) * s.g([m, n, s.no + e, s.no + f])
  }

  function Ring6(s: System, t: Amps, i: int, j: int, a: int, b: int): Pair {
    (m, e) => t.t1([i, e]) * t.t1([m, a]) * s.g([m, s.no + b, s.no + e, j])
  }

  function RingTerms(s: System, t: Amps, i: int, j: int, a: int, b: int): real {
    var o, v := s.no, s.nv;
    Box2(o, v, Ring1(s, t, i, j, a, b)) + Box3(o, v, v, Ring2(s, t, i, j, a, b))
    - Box3(o, v, o, Ring3(s, t, i, j, a, b)) - 0.5 * Box4(o, v, o, v, Ring4(s, t, i, j, a, b))
    - Box4(o, v, o, v, Ring5(s, t, i, j, a, b)) - Box2(o, v, Ring6(s, t, i, j, a, b))
  }

  /** (e_i + e_j - e_a - e_b) times the new doubles. */
  function DoublesEquation(s: System, t: Amps, i: int, j: int, a: int, b: int): real {
    PlainTerms(s, t, i, j, a, b)
    + VirtualTerms(s, t, i, j, a, b) - VirtualTerms(s, t, i, j, b, a)
    + OccupiedTerms(s, t, i, j, a, b) - OccupiedTerms(s, t, j, i, a, b)
    + RingTerms(s, t, i, j, a, b) - RingTerms(s, t, j, i, a, b)
    - RingTerms(s, t, i, j, b, a) + RingTerms(s, t, j, i, b, a)
  }
}
