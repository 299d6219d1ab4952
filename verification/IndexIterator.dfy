/** The row-major index iterator: a forward run yields every multi-index once, in
    lexicographic order, and a reversed iterator walks back from where it stands. */
module IndexIterator {
  import opened Wrappers
  import opened Division

  /** The number of elements of a tensor with these dimensions. */
  function Size(dims: seq<nat>): nat { if |dims| == 0 then 1 else dims[0] * Size(dims[1..]) }

  /** Row-major strides: the last axis has stride one. */
  function Strides(dims: seq<nat>): (s: seq<nat>)
    ensures |s| == |dims|
  {
    if |dims| == 0 then [] else [Size(dims[1..])] + Strides(dims[1..])
  }

  predicate InRange(dims: seq<nat>, idx: seq<nat>) {
    |idx| == |dims| && forall k | 0 <= k < |dims| :: idx[k] < dims[k]
  }

  /** The position of a multi-index: its sum against the strides. */
  function StrideSum(strides: seq<nat>, idx: seq<nat>): nat
    requires |strides| == |idx|
  {
    if |idx| == 0 then 0 else idx[0] * strides[0] + StrideSum(strides[1..], idx[1..])
  }

  /** What one call of the iterator computes from its position: one division with remainder per stride. */
  function Digits(strides: seq<nat>, hold: nat): (idx: seq<nat>)
    requires forall k | 0 <= k < |strides| :: strides[k] > 0
    ensures |idx| == |strides|
  {
    if |strides| == 0 then [] else [hold / strides[0]] + Digits(strides[1..], hold % strides[0])
  }

  ghost predicate LexLess(a: seq<nat>, b: seq<nat>) {
    |a| == |b| && |a| > 0 && (a[0] < b[0] || (a[0] == b[0] && LexLess(a[1..], b[1..])))
  }

  lemma {:induction false} SizePositive(dims: seq<nat>)
    requires Size(dims) > 0
    ensures forall k | 0 <= k < |dims| :: Strides(dims)[k] > 0
    decreases |dims|
  {
    if |dims| > 0 {
      assert Size(dims[1..]) > 0;
      SizePositive(dims[1..]);
      assert forall k | 1 <= k < |dims| :: Strides(dims)[k] == Strides(dims[1..])[k - 1];
    }
  }

  lemma {:induction false} StrideSumBelowSize(dims: seq<nat>, idx: seq<nat>)
    requires InRange(dims, idx)
    ensures StrideSum(Strides(dims), idx) < Size(dims)
    decreases |dims|
  {
    if |dims| > 0 {
      InRangeTail(dims, idx);
      StrideSumBelowSize(dims[1..], idx[1..]);
      MulMonotone(idx[0], dims[0], Size(dims[1..]));
      assert Strides(dims)[1..] == Strides(dims[1..]);
    }
  }

  lemma InRangeTail(dims: seq<nat>, idx: seq<nat>)
    requires InRange(dims, idx) && |dims| > 0
    ensures InRange(dims[1..], idx[1..]) && idx[0] < dims[0]
  {
  }

  lemma QuotientBelow(a: nat, n: nat, m: nat)
    requires a < m * n
    ensures n > 0 && a / n < m
  {
    assert n == 0 ==> m * n == 0;
    assert a == a / n * n + a % n;
    CancelFactor(a / n, m, n);
  }

  lemma CancelFactor(a: nat, b: nat, n: nat)
    requires a * n < b * n
    ensures a < b
  {
    if b <= a {
      MulAtLeast(b, a, n);
    }
  }

  lemma MulAtLeast(a: nat, b: nat, n: nat)
    requires a <= b
    ensures a * n <= b * n
  {
    assert (b - a) * n >= 0;
  }

  lemma FirstDigit(dims: seq<nat>, k: nat)
    requires |dims| > 0 && k < Size(dims) && forall j | 0 <= j < |dims| :: Strides(dims)[j] > 0
    ensures Size(dims[1..]) > 0 && k / Size(dims[1..]) < dims[0] && k % Size(dims[1..]) < Size(dims[1..])
    ensures Strides(dims)[0] == Size(dims[1..]) && Strides(dims)[1..] == Strides(dims[1..])
    ensures Digits(Strides(dims), k) == [k / Size(dims[1..])] + Digits(Strides(dims)[1..], k % Size(dims[1..]))
  {
    QuotientBelow(k, Size(dims[1..]), dims[0]);
  }

  lemma ConsInRange(dims: seq<nat>, q: nat, rest: seq<nat>)
    requires |dims| > 0 && q < dims[0] && InRange(dims[1..], rest)
    ensures InRange(dims, [q] + rest)
  {
    forall k | 0 <= k < |dims|
      ensures ([q] + rest)[k] < dims[k]
    {
      if k > 0 {
        assert rest[k - 1] < dims[1..][k - 1];
      }
    }
  }

  /** The digits of an in-range position are the multi-index at that position. */
  lemma {:induction false} DigitsInRange(dims: seq<nat>, k: nat)
    requires k < Size(dims)
    ensures forall j | 0 <= j < |dims| :: Strides(dims)[j] > 0
    ensures InRange(dims, Digits(Strides(dims), k)) && StrideSum(Strides(dims), Digits(Strides(dims), k)) == k
    decreases |dims|
  {
    hide InRange, Digits;
    SizePositive(dims);
    if |dims| > 0 {
      var n := Size(dims[1..]);
      FirstDigit(dims, k);
      DigitsInRange(dims[1..], k % n);
      var rest := Digits(Strides(dims[1..]), k % n);
      ConsInRange(dims, k / n, rest);
      assert ([k / n] + rest)[1..] == rest;
      assert k == k / n * n + k % n;
    } else {
      NoDigits(k);
    }
  }

  lemma NoDigits(k: nat)
    ensures Digits([], k) == [] && InRange([], []) && Strides([]) == []
  {
  }

  /** Every in-range multi-index is the one at its stride sum: no two positions share it. */
  lemma {:induction false} IndexAtItsPosition(dims: seq<nat>, idx: seq<nat>)
    requires InRange(dims, idx)
    ensures StrideSum(Strides(dims), idx) < Size(dims)
    ensures forall j | 0 <= j < |dims| :: Strides(dims)[j] > 0
    ensures Digits(Strides(dims), StrideSum(Strides(dims), idx)) == idx
    decreases |dims|
  {
    StrideSumBelowSize(dims, idx);
    SizePositive(dims);
    if |dims| > 0 {
      InRangeTail(dims, idx);
      IndexAtItsPosition(dims[1..], idx[1..]);
      StrideSumBelowSize(dims[1..], idx[1..]);
      assert Strides(dims)[1..] == Strides(dims[1..]);
      DivRemainder(idx[0], StrideSum(Strides(dims[1..]), idx[1..]), Size(dims[1..]));
      assert idx == [idx[0]] + idx[1..];
    }
  }

  /** Later positions are lexicographically greater. */
  lemma {:induction false} LexicographicOrder(dims: seq<nat>, a: nat, b: nat)
    requires a < b < Size(dims)
    ensures forall j | 0 <= j < |dims| :: Strides(dims)[j] > 0
    ensures LexLess(Digits(Strides(dims), a), Digits(Strides(dims), b))
    decreases |dims|
  {
    hide Digits;
    SizePositive(dims);
    if |dims| > 0 {
      var n := Size(dims[1..]);
      FirstDigit(dims, a);
      FirstDigit(dims, b);
      var da, db := Digits(Strides(dims[1..]), a % n), Digits(Strides(dims[1..]), b % n);
      assert ([a / n] + da)[1..] == da && ([b / n] + db)[1..] == db;
      assert a == a / n * n + a % n && b == b / n * n + b % n;
      if a / n == b / n {
        LexicographicOrder(dims[1..], a % n, b % n);
      } else {
        QuotientsOrdered(a, b, n);
      }
    }
  }

  lemma QuotientsOrdered(a: nat, b: nat, n: nat)
    requires a < b && n > 0 && a / n != b / n
    ensures a / n < b / n
  {
    assert a == a / n * n + a % n && b == b / n * n + b % n;
    if b / n < a / n {
      MulMonotone(b / n, a / n, n);
    }
  }

  /** All multi-indices in row-major order. */
  function All(dims: seq<nat>): (r: seq<seq<nat>>)
    ensures |r| == Size(dims)
  {
    seq(Size(dims), k requires 0 <= k < Size(dims) => SizePositive(dims); Digits(Strides(dims), k))
  }

  /** A multi-index is yielded at its stride sum and at no other step. */
  lemma EveryIndexOnce(dims: seq<nat>, idx: seq<nat>, k: nat)
    requires InRange(dims, idx) && k < Size(dims)
    ensures All(dims)[k] == idx <==> k == StrideSum(Strides(dims), idx)
    ensures InRange(dims, All(dims)[k])
  {
    IndexAtItsPosition(dims, idx);
    DigitsInRange(dims, k);
  }

  class TensorIndices {
    const strides: seq<nat>
    const size: nat
    const backward: bool
    var current: int
    ghost const dims: seq<nat>

    ghost predicate Valid() { strides == Strides(dims) && size == Size(dims) }

    /** Over a tensor with these dimensions, from the first position forward. */
    constructor (dims: seq<nat>)
      ensures Valid() && this.dims == dims && !backward && current == 0
    {
      var out: seq<nat>, n: nat := [], 1;
      for i := |dims| downto 0
        invariant out == Strides(dims[i..]) && n == Size(dims[i..])
      {
        assert dims[i..][1..] == dims[i + 1..];
        out := [n] + out;
        n := n * dims[i];
      }
      assert dims[0..] == dims;
      strides, size, backward, current, this.dims := out, n, false, 0, dims;
    }

    /** The iterator that runs the other way from the current position of another. */
    constructor Reversed(other: TensorIndices)
      requires other.Valid()
      ensures Valid() && dims == other.dims && backward == !other.backward && current == other.current
    {
      strides, size, backward, current, dims := other.strides, other.size, !other.backward, other.current, other.dims;
    }

    /** The next multi-index, or None when the position is out of range; exhausted iterators stay so. */
    method Next() returns (r: Option<seq<nat>>)
      requires Valid()
      modifies this
      ensures 0 <= old(current) < size <==> r.Some?
      ensures r.Some? ==> r.value == All(dims)[old(current)]
      ensures current == if r == None then old(current) else if backward then old(current) - 1 else old(current) + 1
    {
      if current < 0 || current >= size {
        return None;
      }
      SizePositive(dims);
      var out: seq<nat> := [];
      var hold: nat := current;
      for i := 0 to |strides|
        invariant current == old(current)
        invariant Digits(strides, current) == out + Digits(strides[i..], hold)
      {
        assert strides[i..][1..] == strides[i + 1..];
        out := out + [hold / strides[i]];
        hold := hold % strides[i];
      }
      assert strides[|strides|..] == [] && out + [] == out;
      if backward {
        current := current - 1;
      } else {
        current := current + 1;
      }
      return Some(out);
    }

    /** Runs the iterator until it stops.  Forward it yields everything from its position on; backward it
        yields its position and everything before it, in reverse; out of range on either side it yields nothing. */
    method Drain() returns (all: seq<seq<nat>>)
      requires Valid()
      modifies this
      ensures !(0 <= old(current) < size) ==> all == [] && current == old(current)
      ensures 0 <= old(current) < size && !backward ==> all == All(dims)[old(current)..] && current == size
      ensures 0 <= old(current) < size && backward ==>
                |all| == old(current) + 1 && current == -1
                && forall k | 0 <= k < |all| :: all[k] == All(dims)[old(current) - k]
    {
      all := [];
      ghost var start := current;
      while 0 <= current < size
        invariant !(0 <= start < size) ==> all == [] && current == start
        invariant 0 <= start < size && !backward ==> start <= current <= size && all == All(dims)[start..current]
        invariant 0 <= start < size && backward ==>
                    -1 <= current <= start && |all| == start - current
                    && forall k | 0 <= k < |all| :: all[k] == All(dims)[start - k]
        decreases if backward then current else size - current
      {
        var next := Next();
        all := all + [next.value];
      }
    }

    /** A fresh iterator yields every multi-index and stops, and reversed after it stopped it yields nothing. */
    static method FullRun(dims: seq<nat>) returns (all: seq<seq<nat>>, back: seq<seq<nat>>)
      ensures all == All(dims) && back == []
    {
      var it := new TensorIndices(dims);
      all := it.Drain();
      var rev := new TensorIndices.Reversed(it);
      back := rev.Drain();
      assert Size(dims) == 0 ==> All(dims) == [];
    }

    /** An iterator at a position in range, reversed, walks it down to 0; that run leaves -1, from where it and the
        iterator reversed once more yield nothing. */
    static method BackAndForth(it: TensorIndices) returns (back: seq<seq<nat>>, again: seq<seq<nat>>,
                                                           forth: seq<seq<nat>>)
      requires it.Valid() && !it.backward && 0 <= it.current < it.size
      ensures |back| == it.current + 1 && forall k | 0 <= k < |back| :: back[k] == All(it.dims)[it.current - k]
      ensures again == forth == []
    {
      var rev := new TensorIndices.Reversed(it);
      back := rev.Drain();
      again := rev.Drain();
      var fwd := new TensorIndices.Reversed(rev);
      forth := fwd.Drain();
    }
  }
}
