/** The median and the median absolute deviation of benchmark samples, and why outliers cannot move them far. */
module RobustStats {
  import opened Wrappers

  ghost predicate Ordered(s: seq<real>) { forall j, k | 0 <= j < k < |s| :: s[j] <= s[k] }

  function Insert(s: seq<real>, x: real): (r: seq<real>)
    requires Ordered(s)
    ensures Ordered(r) && multiset(r) == multiset(s) + multiset{x}
  {
    if |s| == 0 || x <= s[0] then [x] + s
    else
      assert s == [s[0]] + s[1..];
      var tail := Insert(s[1..], x);
      OrderedCons(s[0], tail, s[1..], x);
      [s[0]] + tail
  }

  lemma OrderedCons(first: real, tail: seq<real>, s: seq<real>, x: real)
    requires Ordered(tail) && multiset(tail) == multiset(s) + multiset{x}
    requires first <= x && forall k | 0 <= k < |s| :: first <= s[k]
    ensures Ordered([first] + tail)
  {
    forall k | 0 <= k < |tail|
      ensures first <= tail[k]
    {
      assert tail[k] in multiset(tail);
      assert tail[k] == x || tail[k] in multiset(s);
    }
  }

  /** A sorted copy. */
  function Sorted(values: seq<real>): (r: seq<real>)
    ensures Ordered(r) && multiset(r) == multiset(values)
  {
    if |values| == 0 then []
    else
      assert values == [values[0]] + values[1..];
      Insert(Sorted(values[1..]), values[0])
  }

  lemma SameLength(values: seq<real>)
    ensures |Sorted(values)| == |values|
  {
    assert |multiset(Sorted(values))| == |multiset(values)|;
  }

  /** The middle value, or the mean of the two middle values; an empty list has none (an IndexError). */
  function Median(values: seq<real>): Option<real> {
    SameLength(values);
    var s, n := Sorted(values), |values|;
    if n % 2 == 1 then Some(s[n / 2])
    else if n == 0 then None
    else Some((s[n / 2 - 1] + s[n / 2]) / 2.0)
  }

  function Abs(x: real): real { if x < 0.0 then -x else x }

  function Deviations(values: seq<real>, center: real): seq<real> {
    seq(|values|, k requires 0 <= k < |values| => Abs(values[k] - center))
  }

  /** The median absolute deviation. */
  function Mad(values: seq<real>): Option<real> {
    var m := Median(values);
    if m.None? then None else Median(Deviations(values, m.value))
  }

  // ---- counting -----------------------------------------------------------------------------------

  predicate Between(lo: real, hi: real, x: real) { lo <= x <= hi }

  function Count(lo: real, hi: real, s: seq<real>): nat {
    if |s| == 0 then 0 else (if Between(lo, hi, s[0]) then 1 else 0) + Count(lo, hi, s[1..])
  }

  lemma {:induction false} CountInsert(lo: real, hi: real, s: seq<real>, x: real)
    requires Ordered(s)
    ensures Count(lo, hi, Insert(s, x)) == Count(lo, hi, s) + if Between(lo, hi, x) then 1 else 0
  {
    if |s| == 0 || x <= s[0] {
      assert ([x] + s)[1..] == s;
    } else {
      CountInsert(lo, hi, s[1..], x);
      assert Insert(s, x)[1..] == Insert(s[1..], x);
    }
  }

  lemma {:induction false} CountSorted(lo: real, hi: real, values: seq<real>)
    ensures Count(lo, hi, Sorted(values)) == Count(lo, hi, values)
  {
    if |values| > 0 {
      CountSorted(lo, hi, values[1..]);
      CountInsert(lo, hi, Sorted(values[1..]), values[0]);
    }
  }

  lemma {:induction false} CountConcat(lo: real, hi: real, a: seq<real>, b: seq<real>)
    ensures Count(lo, hi, a + b) == Count(lo, hi, a) + Count(lo, hi, b)
  {
    if |a| == 0 {
      assert a + b == b;
    } else {
      CountConcat(lo, hi, a[1..], b);
      assert (a + b)[1..] == a[1..] + b;
    }
  }

  lemma {:induction false} CountNone(lo: real, hi: real, s: seq<real>)
    requires forall k | 0 <= k < |s| :: !Between(lo, hi, s[k])
    ensures Count(lo, hi, s) == 0
  {
    if |s| > 0 {
      CountNone(lo, hi, s[1..]);
    }
  }

  lemma {:induction false} CountAtMost(lo: real, hi: real, s: seq<real>)
    ensures Count(lo, hi, s) <= |s|
  {
    if |s| > 0 {
      CountAtMost(lo, hi, s[1..]);
    }
  }

  /** A stretch of the samples outside the range cannot hold a majority's worth. */
  lemma CountOutside(lo: real, hi: real, s: seq<real>, from: nat, to: nat)
    requires from <= to <= |s| && forall k | from <= k < to :: !Between(lo, hi, s[k])
    ensures Count(lo, hi, s) <= |s| - (to - from)
  {
    assert s == s[..from] + s[from..to] + s[to..];
    CountConcat(lo, hi, s[..from] + s[from..to], s[to..]);
    CountConcat(lo, hi, s[..from], s[from..to]);
    CountNone(lo, hi, s[from..to]);
    CountAtMost(lo, hi, s[..from]);
    CountAtMost(lo, hi, s[to..]);
  }

  /** If a strict majority lies in a range, so does every sample that at least half lie below and above. */
  lemma MiddleInRange(lo: real, hi: real, s: seq<real>, m: nat)
    requires Ordered(s) && 2 * Count(lo, hi, s) > |s|
    requires |s| % 2 == 1 ==> m == |s| / 2
    requires |s| % 2 == 0 ==> |s| / 2 - 1 <= m <= |s| / 2
    ensures m < |s| && Between(lo, hi, s[m])
  {
    CountAtMost(lo, hi, s);
    if s[m] < lo {
      CountOutside(lo, hi, s, 0, m + 1);
    } else if s[m] > hi {
      CountOutside(lo, hi, s, m, |s|);
    }
  }

  /** If strictly more than half of the samples lie in a range, so does their median, whatever the others are. */
  lemma MedianIsRobust(lo: real, hi: real, values: seq<real>)
    requires 2 * Count(lo, hi, values) > |values|
    ensures Median(values).Some? && Between(lo, hi, Median(values).value)
  {
    hide Median, Sorted, Count, Ordered, Between;
    SameLength(values);
    CountSorted(lo, hi, values);
    var s, n := Sorted(values), |values|;
    CountAtMost(lo, hi, values);
    MiddleInRange(lo, hi, s, n / 2);
    MedianIs(values);
    if n % 2 == 0 {
      MiddleInRange(lo, hi, s, n / 2 - 1);
      MeanBetween(lo, hi, s[n / 2 - 1], s[n / 2]);
    }
  }

  /** The middle of a list, or the mean of its two middles. */
  function Middle(s: seq<real>): real
    requires s != []
  {
    var n := |s|;
    if n % 2 == 1 then s[n / 2] else (s[n / 2 - 1] + s[n / 2]) / 2.0
  }

  lemma MedianIs(values: seq<real>)
    requires values != []
    ensures |Sorted(values)| == |values| && Median(values) == Some(Middle(Sorted(values)))
  {
    hide Sorted, Ordered;
    SameLength(values);
  }

  lemma MeanBetween(lo: real, hi: real, x: real, y: real)
    requires Between(lo, hi, x) && Between(lo, hi, y)
    ensures Between(lo, hi, (x + y) / 2.0)
  {
  }

  lemma {:induction false} CountDeviations(lo: real, hi: real, values: seq<real>, center: real)
    requires Between(lo, hi, center)
    ensures Count(0.0, hi - lo, Deviations(values, center)) >= Count(lo, hi, values)
  {
    if |values| > 0 {
      CountDeviations(lo, hi, values[1..], center);
      assert Deviations(values, center)[1..] == Deviations(values[1..], center);
    }
  }

  /** And their median absolute deviation is at most the width of the range. */
  lemma MadIsRobust(lo: real, hi: real, values: seq<real>)
    requires 2 * Count(lo, hi, values) > |values|
    ensures Mad(values).Some? && 0.0 <= Mad(values).value <= hi - lo
  {
    hide Median, Count, Deviations, Between;
    MedianIsRobust(lo, hi, values);
    BetweenMeans(lo, hi, Median(values).value);
    var m := Median(values).value;
    CountDeviations(lo, hi, values, m);
    DeviationsLength(values, m);
    MedianIsRobust(0.0, hi - lo, Deviations(values, m));
    BetweenMeans(0.0, hi - lo, Median(Deviations(values, m)).value);
  }

  lemma BetweenMeans(lo: real, hi: real, x: real)
    ensures Between(lo, hi, x) <==> lo <= x <= hi
  {
  }

  lemma DeviationsLength(values: seq<real>, center: real)
    ensures |Deviations(values, center)| == |values|
  {
  }

  lemma MedianOfTwo(x: real, y: real)
    requires x <= y
    ensures Median([x, y]) == Some((x + y) / 2.0)
  {
    assert [x, y][1..] == [y] && [y][1..] == [];
    assert Sorted([y]) == [y];
    assert Sorted([x, y]) == [x, y];
  }

  lemma CountOfTwo(lo: real, hi: real, x: real, y: real)
    requires Between(lo, hi, x) && y > hi
    ensures Count(lo, hi, [x, y]) == 1
  {
    assert [x, y][1..] == [y] && [y][1..] == [];
    assert Count(lo, hi, [y]) == 0;
  }

  /** The majority must be strict: with only half of the samples in the range the median has no bound. */
  lemma HalfIsNotEnough(lo: real, hi: real, bound: real)
    requires lo <= hi
    ensures exists values ::
              2 * Count(lo, hi, values) == |values| && Median(values).Some? && Median(values).value > bound
  {
    hide Median, Count;
    var far := 2.0 * Abs(bound) + Abs(hi) + Abs(lo) + 1.0;
    MedianOfTwo(lo, far);
    CountOfTwo(lo, hi, lo, far);
    assert |[lo, far]| == 2;
  }

  /** Only an empty list has no median and no deviation. */
  lemma EmptyHasNone(values: seq<real>)
    ensures Median(values).None? <==> values == []
    ensures Mad(values).None? <==> values == []
  {
  }

  // ---- scaling, shifting and negating the samples ---------------------------------------------

  /** A function of every sample. */
  function Mapped(f: real -> real, values: seq<real>): (r: seq<real>)
    ensures |r| == |values| && forall k | 0 <= k < |r| :: r[k] == f(values[k])
  {
    seq(|values|, k requires 0 <= k < |values| => f(values[k]))
  }

  /** Scaling, then shifting. */
  function Line(c: real, t: real): real -> real { x => c * x + t }

  function Affine(c: real, t: real, values: seq<real>): seq<real> { Mapped(Line(c, t), values) }

  function Reversed(s: seq<real>): (r: seq<real>)
    ensures |r| == |s| && forall k | 0 <= k < |s| :: r[k] == s[|s| - 1 - k]
  {
    seq(|s|, k requires 0 <= k < |s| => s[|s| - 1 - k])
  }

  /** How often a value occurs. */
  function Many(s: seq<real>, e: real): nat { multiset(s)[e] }

  /** The same samples, in whatever order. */
  ghost predicate SameSamples(a: seq<real>, b: seq<real>) { |a| == |b| && forall e :: Many(a, e) == Many(b, e) }

  lemma SameMultisets(a: seq<real>, b: seq<real>)
    requires multiset(a) == multiset(b)
    ensures SameSamples(a, b)
  {
    assert |a| == |multiset(a)| == |multiset(b)| == |b|;
  }

  lemma Without(b: seq<real>, k: nat, e: real)
    requires k < |b|
    ensures Many(b, e) == Many(b[..k] + b[k + 1..], e) + if e == b[k] then 1 else 0
  {
    assert b == b[..k] + [b[k]] + b[k + 1..];
  }

  lemma {:induction false} ReversedSame(s: seq<real>)
    ensures SameSamples(Reversed(s), s)
  {
    hide Many;
    if |s| > 0 {
      ReversedSame(s[1..]);
      var r := Reversed(s);
      assert r[..|s| - 1] + r[|s|..] == Reversed(s[1..]) && s[..0] + s[1..] == s[1..];
      forall e
        ensures Many(r, e) == Many(s, e)
      {
        Without(r, |s| - 1, e);
        Without(s, 0, e);
      }
    }
  }

  lemma MappedWithout(f: real -> real, b: seq<real>, k: nat, e: real)
    requires k < |b|
    ensures Many(Mapped(f, b), e) == Many(Mapped(f, b[..k] + b[k + 1..]), e) + if e == f(b[k]) then 1 else 0
  {
    var x, rest := Mapped(f, b), b[..k] + b[k + 1..];
    Without(x, k, e);
    assert Mapped(f, rest) == x[..k] + x[k + 1..];
  }

  lemma Find(a: seq<real>, b: seq<real>) returns (k: nat)
    requires SameSamples(a, b) && |a| > 0
    ensures k < |b| && b[k] == a[0]
  {
    assert a[0] in multiset(a);
    assert Many(a, a[0]) == Many(b, a[0]);
    assert a[0] in multiset(b);
    k :| 0 <= k < |b| && b[k] == a[0];
  }

  /** Taking the same value out of both leaves the same samples. */
  lemma SameRest(a: seq<real>, b: seq<real>, k: nat)
    requires SameSamples(a, b) && |a| > 0 && k < |b| && b[k] == a[0]
    ensures SameSamples(a[1..], b[..k] + b[k + 1..])
  {
    hide Many;
    assert a[..0] + a[1..] == a[1..];
    forall e
      ensures Many(a[1..], e) == Many(b[..k] + b[k + 1..], e)
    {
      Without(a, 0, e);
      Without(b, k, e);
    }
  }

  lemma {:induction false} MappedSame(f: real -> real, a: seq<real>, b: seq<real>)
    requires SameSamples(a, b)
    ensures SameSamples(Mapped(f, a), Mapped(f, b))
  {
    hide Many;
    if |a| > 0 {
      var k := Find(a, b);
      SameRest(a, b, k);
      MappedSame(f, a[1..], b[..k] + b[k + 1..]);
      assert a[..0] + a[1..] == a[1..];
      forall e
        ensures Many(Mapped(f, a), e) == Many(Mapped(f, b), e)
      {
        MappedWithout(f, a, 0, e);
        MappedWithout(f, b, k, e);
      }
    } else {
      assert a == b;
    }
  }

  lemma SameLeast(a: seq<real>, b: seq<real>)
    requires Ordered(a) && Ordered(b) && SameSamples(a, b) && |a| > 0
    ensures a[0] == b[0]
  {
    hide Many;
    var k := Find(a, b);
    var j := Find(b, a);
  }

  lemma OrderedRest(a: seq<real>)
    requires Ordered(a) && |a| > 0
    ensures Ordered(a[1..])
  {
  }

  /** There is one sorted order. */
  lemma {:induction false} SortedIsUnique(a: seq<real>, b: seq<real>)
    requires Ordered(a) && Ordered(b) && SameSamples(a, b)
    ensures a == b
  {
    hide Ordered, Many;
    if |a| > 0 {
      SameLeast(a, b);
      SameRest(a, b, 0);
      assert b[..0] + b[1..] == b[1..];
      OrderedRest(a);
      OrderedRest(b);
      SortedIsUnique(a[1..], b[1..]);
      assert a == [a[0]] + a[1..] && b == [b[0]] + b[1..];
    }
  }

  /** Scaling by a positive number keeps the order, by a negative one reverses it. */
  lemma SortedAffine(c: real, t: real, values: seq<real>)
    ensures Sorted(Affine(c, t, values))
         == if c >= 0.0 then Affine(c, t, Sorted(values)) else Reversed(Affine(c, t, Sorted(values)))
  {
    var s := Sorted(values);
    var x := Affine(c, t, s);
    hide Sorted, Ordered, Many;
    SameMultisets(values, s);
    MappedSame(Line(c, t), values, s);
    SameMultisets(Sorted(Affine(c, t, values)), Affine(c, t, values));
    ReversedSame(x);
    AffineOrder(c, t, s);
    SortedIsUnique(Sorted(Affine(c, t, values)), if c >= 0.0 then x else Reversed(x));
  }

  lemma AffineOrder(c: real, t: real, s: seq<real>)
    requires Ordered(s)
    ensures Ordered(if c >= 0.0 then Affine(c, t, s) else Reversed(Affine(c, t, s)))
  {
    var x := Affine(c, t, s);
    forall j, k | 0 <= j < k < |s|
      ensures if c >= 0.0 then x[j] <= x[k] else x[k] <= x[j]
    {
      Monotone(c, t, s[j], s[k]);
    }
    hide Line;
    var y := if c >= 0.0 then x else Reversed(x);
    forall j, k | 0 <= j < k < |y|
      ensures y[j] <= y[k]
    {
      if c < 0.0 {
        assert y[j] == x[|s| - 1 - j] && y[k] == x[|s| - 1 - k];
      }
    }
  }

  lemma Monotone(c: real, t: real, x: real, y: real)
    requires x <= y
    ensures c >= 0.0 ==> Line(c, t)(x) <= Line(c, t)(y)
    ensures c < 0.0 ==> Line(c, t)(y) <= Line(c, t)(x)
  {
    assert c * y - c * x == c * (y - x);
  }

  /** The median follows any scaling, shift or change of sign of the samples. */
  lemma MedianAffine(c: real, t: real, values: seq<real>)
    requires values != []
    ensures Median(values).Some? && Median(Affine(c, t, values)) == Some(Line(c, t)(Median(values).value))
  {
    hide Sorted, Median, Line, Ordered, Middle;
    MedianIs(values);
    MedianIs(Affine(c, t, values));
    SortedAffine(c, t, values);
    MiddleOfAffine(c, t, Sorted(values));
  }

  lemma MiddleOfAffine(c: real, t: real, s: seq<real>)
    requires s != []
    ensures Middle(if c >= 0.0 then Affine(c, t, s) else Reversed(Affine(c, t, s))) == Line(c, t)(Middle(s))
  {
    hide Line;
    var n := |s|;
    if n % 2 == 0 {
      assert n - 1 - n / 2 == n / 2 - 1;
      MeanOfTwo(c, t, s[n / 2 - 1], s[n / 2]);
    } else {
      assert n - 1 - n / 2 == n / 2;
    }
  }

  lemma MeanOfTwo(c: real, t: real, x: real, y: real)
    ensures (Line(c, t)(x) + Line(c, t)(y)) / 2.0 == Line(c, t)((x + y) / 2.0)
  {
    assert c * x + c * y == c * (x + y) == 2.0 * (c * ((x + y) / 2.0));
  }

  /** The deviation does not see a shift or a change of sign, and follows a scaling. */
  lemma MadAffine(c: real, t: real, values: seq<real>)
    requires values != []
    ensures Mad(values).Some? && Mad(Affine(c, t, values)) == Some(Line(Abs(c), 0.0)(Mad(values).value))
  {
    hide Median, Line;
    MedianAffine(c, t, values);
    var m := Median(values).value;
    var d := Deviations(values, m);
    DeviationsLength(values, m);
    forall k | 0 <= k < |values|
      ensures Abs(Line(c, t)(values[k]) - Line(c, t)(m)) == Line(Abs(c), 0.0)(Abs(values[k] - m))
    {
      AbsOfLine(c, t, values[k], m);
    }
    assert Deviations(Affine(c, t, values), Line(c, t)(m)) == Affine(Abs(c), 0.0, d);
    MedianAffine(Abs(c), 0.0, d);
  }

  lemma AbsOfLine(c: real, t: real, x: real, m: real)
    ensures Abs(Line(c, t)(x) - Line(c, t)(m)) == Line(Abs(c), 0.0)(Abs(x - m))
  {
    var y := x - m;
    assert Line(c, t)(x) - Line(c, t)(m) == c * y;
  }

  /** In particular: the samples negated have the negated median and the same deviation. */
  lemma NegatedSamples(values: seq<real>)
    requires values != []
    ensures var negated := seq(|values|, k requires 0 <= k < |values| => -values[k]);
            && Median(values).Some? && Median(negated) == Some(-Median(values).value)
            && Mad(values).Some? && Mad(negated) == Mad(values)
  {
    hide Median, Mad;
    MedianAffine(-1.0, 0.0, values);
    MadAffine(-1.0, 0.0, values);
    assert seq(|values|, k requires 0 <= k < |values| => -values[k]) == Affine(-1.0, 0.0, values);
  }
}
