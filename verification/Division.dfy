/** Offsets and remainders. */
module Division {

  lemma MulMonotone(a: nat, b: nat, n: nat)
    requires a < b
    ensures a * n + n <= b * n
  {
    assert b * n == a * n + n + (b - a - 1) * n;
    assert (b - a - 1) * n >= 0;
  }

  /** A product and a smaller remainder are taken apart again by division. */
  lemma DivRemainder(q: nat, r: nat, n: nat)
    requires r < n
    ensures (q * n + r) / n == q && (q * n + r) % n == r
  {
    var a := q * n + r;
    assert a == a / n * n + a % n;
    if a / n < q {
      MulMonotone(a / n, q, n);
    } else if q < a / n {
      MulMonotone(q, a / n, n);
    }
  }
}
