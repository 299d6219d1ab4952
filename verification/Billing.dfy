/** The exclusive-time billing stack of the DLPNO benchmark: every billed call charges its row
    for its own elapsed time, less what nested billed calls already charged. */
module Billing {
  import Sums


  /** One billed call as it happened: its row, the clock at entry and exit, and the billed calls it made
      before it returned or raised. */
  datatype Call = Call(row: string, start: real, nested: seq<Call>, stop: real, raises: bool)

  function Elapsed(c: Call): real { c.stop - c.start }

  function TotalElapsed(cs: seq<Call>): real {
    if |cs| == 0 then 0.0 else TotalElapsed(cs[..|cs| - 1]) + Elapsed(cs[|cs| - 1])
  }

  /** What a call spends outside its nested billed calls. */
  function Own(c: Call): real { Elapsed(c) - TotalElapsed(c.nested) }

  /** The exclusive time a forest of calls charges to one row: the specification of the bill. */
  function Charge(cs: seq<Call>, row: string): real
    decreases cs
  {
    if |cs| == 0 then 0.0
    else
      var c := cs[|cs| - 1];
      Charge(cs[..|cs| - 1], row) + Charge(c.nested, row) + if c.row == row then Own(c) else 0.0
  }

  /** The exclusive time a forest charges in all. */
  function ChargeAll(cs: seq<Call>): real
    decreases cs
  {
    if |cs| == 0 then 0.0
    else ChargeAll(cs[..|cs| - 1]) + ChargeAll(cs[|cs| - 1].nested) + Own(cs[|cs| - 1])
  }

  // ---- sums over a dictionary -----------------------------------------------------------------

  function Get(rows: map<string, real>, row: string): real { if row in rows then rows[row] else 0.0 }

  ghost function Total(rows: map<string, real>): real
    decreases |rows|
  {
    if |rows| == 0 then 0.0
    else
      var k :| k in rows;
      rows[k] + Total(rows - {k})
  }

  /** The total does not depend on which row is taken out first. */
  lemma {:induction false} TotalWithout(rows: map<string, real>, k: string)
    requires k in rows
    ensures Total(rows) == rows[k] + Total(rows - {k})
    decreases |rows|
  {
    var c := FirstTaken(rows);
    if c != k {
      TotalWithout(rows - {c}, k);
      TotalWithout(rows - {k}, c);
      assert rows - {c} - {k} == rows - {k} - {c};
    }
  }

  lemma FirstTaken(rows: map<string, real>) returns (c: string)
    requires |rows| > 0
    ensures c in rows && Total(rows) == rows[c] + Total(rows - {c}) && |rows - {c}| < |rows|
  {
    c :| c in rows && Total(rows) == rows[c] + Total(rows - {c});
    assert (rows - {c}).Keys == rows.Keys - {c};
  }

  lemma TotalAdd(rows: map<string, real>, row: string, x: real)
    ensures Total(rows[row := Get(rows, row) + x]) == Total(rows) + x
  {
    var after := rows[row := Get(rows, row) + x];
    TotalWithout(after, row);
    if row in rows {
      TotalWithout(rows, row);
      assert after - {row} == rows - {row};
    } else {
      assert after - {row} == rows;
    }
  }

  lemma NothingCharged(row: string)
    ensures Charge([], row) == 0.0
  {
  }

  lemma ChargeLast(cs: seq<Call>, row: string)
    requires |cs| > 0
    ensures Charge(cs, row) == Charge(cs[..|cs| - 1], row) + Charge([cs[|cs| - 1]], row)
    ensures Charge([cs[|cs| - 1]], row)
         == Charge(cs[|cs| - 1].nested, row) + if cs[|cs| - 1].row == row then Own(cs[|cs| - 1]) else 0.0
  {
    var c := cs[|cs| - 1];
    assert [c][..0] == [];
  }

  // ---- conservation, over any forest ------------------------------------------------------------

  /** The exclusive times of a forest, over all rows, are the elapsed times of its outermost calls. */
  lemma {:induction false} ChargesConserve(cs: seq<Call>)
    ensures ChargeAll(cs) == TotalElapsed(cs)
    decreases cs
  {
    if |cs| > 0 {
      ChargesConserve(cs[..|cs| - 1]);
      ChargesConserve(cs[|cs| - 1].nested);
    }
  }

  /** The calls of a forest happen one after another between two readings of a clock that never runs backwards,
      nested calls within their callers. */
  ghost predicate Timeline(cs: seq<Call>, from: real, to: real)
    decreases cs
  {
    if |cs| == 0 then from <= to
    else
      var c := cs[|cs| - 1];
      Timeline(cs[..|cs| - 1], from, c.start) && Timeline(c.nested, c.start, c.stop) && c.stop <= to
  }

  /** With such a clock, a forest takes no more time than passes, and charges no row a negative time. */
  lemma {:induction false} ChargesAreNonnegative(cs: seq<Call>, from: real, to: real, row: string)
    requires Timeline(cs, from, to)
    ensures 0.0 <= TotalElapsed(cs) <= to - from && Charge(cs, row) >= 0.0
    decreases cs
  {
    if |cs| > 0 {
      var c := cs[|cs| - 1];
      ChargesAreNonnegative(cs[..|cs| - 1], from, c.start, row);
      ChargesAreNonnegative(c.nested, c.start, c.stop, row);
    }
  }

  // ---- what a row is charged ----------------------------------------------------------------------

  function Durations(cs: seq<Call>): int -> real { k => if 0 <= k < |cs| then cs[k].stop - cs[k].start else 0.0 }

  /** The elapsed time of calls side by side is the sum of their stops less their starts. */
  lemma {:induction false} TotalElapsedIs(cs: seq<Call>)
    ensures TotalElapsed(cs) == Sums.Sum(0, |cs|, Durations(cs))
  {
    if |cs| > 0 {
      var n := |cs| - 1;
      TotalElapsedIs(cs[..n]);
      Sums.SumScale(0, n, 1.0, Durations(cs[..n]), Durations(cs));
      Sums.SumLast(0, n, Durations(cs));
    }
  }

  /** Every call of a forest, nested ones included, has this row. */
  ghost predicate AllOf(cs: seq<Call>, row: string)
    decreases cs
  {
    forall k | 0 <= k < |cs| :: cs[k].row == row && AllOf(cs[k].nested, row)
  }

  ghost predicate NoneOf(cs: seq<Call>, row: string)
    decreases cs
  {
    forall k | 0 <= k < |cs| :: cs[k].row != row && NoneOf(cs[k].nested, row)
  }

  /** A row that calls itself is charged the time of its outermost calls once, however deep it nests; a row that is
      never called is charged nothing. */
  lemma {:induction false} RecursionChargedOnce(cs: seq<Call>, row: string)
    ensures AllOf(cs, row) ==> Charge(cs, row) == TotalElapsed(cs)
    ensures NoneOf(cs, row) ==> Charge(cs, row) == 0.0
    decreases cs
  {
    if |cs| > 0 {
      var c := cs[|cs| - 1];
      RecursionChargedOnce(cs[..|cs| - 1], row);
      RecursionChargedOnce(c.nested, row);
    }
  }

  /** A call of one row around calls of others: it is charged its own time less theirs, and they are charged theirs. */
  lemma NestedCharges(c: Call, row: string)
    requires NoneOf(c.nested, c.row)
    ensures Charge([c], c.row) == c.stop - c.start - TotalElapsed(c.nested)
    ensures row != c.row ==> Charge([c], row) == Charge(c.nested, row)
  {
    RecursionChargedOnce(c.nested, c.row);
    ChargeLast([c], c.row);
    ChargeLast([c], row);
    assert [c][..0] == [];
  }

  // ---- the stack ---------------------------------------------------------------------------------

  function SumOf(stack: seq<real>): real {
    if |stack| == 0 then 0.0 else SumOf(stack[..|stack| - 1]) + stack[|stack| - 1]
  }

  lemma SumOfPush(stack: seq<real>, x: real)
    ensures SumOf(stack + [x]) == SumOf(stack) + x
  {
    assert (stack + [x])[..|stack|] == stack;
  }

  /** The locals of one wrapper that has not returned: its row and its starting time. */
  datatype Frame = Frame(row: string, start: real)

  /** How much time has passed between a wrapper's start and the start of the wrapper above it, or now. */
  function Span(frames: seq<Frame>, clock: real, k: nat): real
    requires k < |frames|
  {
    (if k + 1 < |frames| then frames[k + 1].start else clock) - frames[k].start
  }

  /** No wrapper has charged nested rows with more than its span. */
  ghost predicate Within(stack: seq<real>, frames: seq<Frame>, clock: real) {
    && |frames| == |stack|
    && forall k | 0 <= k < |stack| :: 0.0 <= stack[k] <= Span(frames, clock, k)
  }

  lemma WithinPush(stack: seq<real>, frames: seq<Frame>, clock: real, f: Frame)
    requires Within(stack, frames, clock) && (|frames| > 0 ==> f.start >= clock)
    ensures Within(stack + [0.0], frames + [f], f.start)
  {
    forall k | 0 <= k < |stack|
      ensures 0.0 <= stack[k] <= Span(frames + [f], f.start, k)
    {
      assert stack[k] <= Span(frames, clock, k);
    }
  }

  /** The stack after the top wrapper returns at time `now`. */
  function Popped(stack: seq<real>, frames: seq<Frame>, now: real): seq<real>
    requires |stack| == |frames| > 0
  {
    var n := |stack| - 1;
    if n > 0 then stack[..n - 1] + [stack[n - 1] + (now - frames[n].start)] else []
  }

  lemma WithinPop(stack: seq<real>, frames: seq<Frame>, clock: real, now: real)
    requires Within(stack, frames, clock) && |stack| > 0 && now >= clock
    ensures stack[|stack| - 1] <= now - frames[|frames| - 1].start
    ensures Within(Popped(stack, frames, now), frames[..|stack| - 1], now)
  {
    var n := |stack| - 1;
    var s := Popped(stack, frames, now);
    assert 0.0 <= stack[n] <= Span(frames, clock, n);
    forall k | 0 <= k < n
      ensures 0.0 <= s[k] <= Span(frames[..n], now, k)
    {
      assert 0.0 <= stack[k] <= Span(frames, clock, k);
    }
  }

  /** A row charged with the part of a wrapper's time that is its own. */
  function Charged(rows: map<string, real>, f: Frame, now: real, nested: real): map<string, real> {
    rows[f.row := Get(rows, f.row) + (now - f.start) - nested]
  }

  lemma SumOfPopped(stack: seq<real>, frames: seq<Frame>, now: real)
    requires |stack| == |frames| > 0
    ensures SumOf(Popped(stack, frames, now))
         == SumOf(stack) - stack[|stack| - 1] + if |stack| > 1 then now - frames[|stack| - 1].start else 0.0
  {
    var n := |stack| - 1;
    if n > 0 {
      SumOfPush(stack[..n - 1], stack[n - 1] + (now - frames[n].start));
      SumOfPush(stack[..n - 1], stack[n - 1]);
      assert stack[..n] == stack[..n - 1] + [stack[n - 1]];
    }
  }

  class Biller {
    var stack: seq<real>
    var rows: map<string, real>
    var frames: seq<Frame>
    ghost var completed: real
    ghost var clock: real

    /** At every moment the rows sum to the elapsed time of the completed outermost calls plus the stack. */
    ghost predicate Balanced()
      reads this
    {
      |frames| == |stack| && Total(rows) == completed + SumOf(stack)
    }

    /** As long as the clock never runs backwards: no row is negative, and no wrapper has charged more to
        nested rows than has passed inside it. */
    ghost predicate Ordered()
      reads this
    {
      (forall row :: Get(rows, row) >= 0.0) && Within(stack, frames, clock)
    }

    constructor ()
      ensures Balanced() && Ordered()
      ensures stack == [] && rows == map[] && frames == [] && completed == 0.0
    {
      stack, rows, frames, completed, clock := [], map[], [], 0.0, 0.0;
    }

    /** On entry to a wrapper. */
    method Begin(row: string, now: real)
      requires Balanced()
      modifies this
      ensures Balanced() && completed == old(completed) && clock == now
      ensures old(Ordered()) && (|old(frames)| > 0 ==> now >= old(clock)) ==> Ordered()
      ensures stack == old(stack) + [0.0] && frames == old(frames) + [Frame(row, now)] && rows == old(rows)
    {
      hide Within, Total, SumOf;
      if Within(stack, frames, clock) && (|frames| > 0 ==> now >= clock) {
        WithinPush(stack, frames, clock, Frame(row, now));
      }
      frames := frames + [Frame(row, now)];
      SumOfPush(stack, 0.0);
      stack := stack + [0.0];
      clock := now;
    }

    /** The finally block: runs whether the wrapped call returned or raised. */
    method End(now: real)
      requires Balanced() && |frames| > 0
      modifies this
      ensures Balanced() && clock == now
      ensures old(Ordered()) && now >= old(clock) ==> Ordered()
      ensures frames == old(frames)[..|old(frames)| - 1] && stack == Popped(old(stack), old(frames), now)
      ensures rows == Charged(old(rows), old(frames)[|old(frames)| - 1], now, old(stack)[|old(stack)| - 1])
      ensures completed == old(completed) + if |stack| == 0 then now - old(frames)[0].start else 0.0
    {
      hide Total, Within;
      ghost var stack0, frames0, rows0, clock0 := stack, frames, rows, clock;
      var f := frames[|frames| - 1];
      var elapsed := now - f.start;
      var nested := stack[|stack| - 1];
      frames, stack := frames[..|frames| - 1], stack[..|stack| - 1];
      rows := rows[f.row := Get(rows, f.row) + elapsed - nested];
      if |stack| > 0 {
        stack := stack[|stack| - 1 := stack[|stack| - 1] + elapsed];
      } else {
        completed := completed + elapsed;
      }
      clock := now;
      assert stack == Popped(stack0, frames0, now);
      SumOfPopped(stack0, frames0, now);
      TotalAdd(rows0, f.row, elapsed - nested);
      if old(Ordered()) && now >= clock0 {
        WithinPop(stack0, frames0, clock0, now);
        forall row
          ensures Get(rows, row) >= 0.0
        {
          assert Get(rows0, row) >= 0.0;
        }
      }
    }

    /** A whole billed call with the billed calls nested in it.  Every row is charged exactly the exclusive
        time of its calls, the enclosing wrapper exactly the elapsed time, and raising changes nothing. */
    method Timed(c: Call) returns (raised: bool)
      requires Balanced()
      modifies this
      ensures Balanced() && raised == c.raises && frames == old(frames)
      ensures forall row :: Get(rows, row) == Get(old(rows), row) + Charge([c], row)
      ensures |stack| == |old(stack)| && (|stack| > 0 ==>
            stack == old(stack)[..|stack| - 1] + [old(stack)[|stack| - 1] + Elapsed(c)])
      ensures completed == old(completed) + if |stack| == 0 then Elapsed(c) else 0.0
      decreases c, 0
    {
      hide Charge, Total;
      Begin(c.row, c.start);
      Nested(c.nested);
      assert stack == old(stack) + [TotalElapsed(c.nested)];
      End(c.stop);
      raised := c.raises;
      forall row
        ensures Get(rows, row) == Get(old(rows), row) + Charge([c], row)
      {
        ChargeLast([c], row);
      }
    }

    method Nested(cs: seq<Call>)
      requires Balanced() && |stack| > 0
      modifies this
      ensures Balanced() && frames == old(frames) && completed == old(completed)
      ensures forall row :: Get(rows, row) == Get(old(rows), row) + Charge(cs, row)
      ensures stack == old(stack)[..|old(stack)| - 1] + [old(stack)[|old(stack)| - 1] + TotalElapsed(cs)]
      decreases cs, 1
    {
      hide Total;
      if |cs| > 0 {
        var last := cs[|cs| - 1];
        Nested(cs[..|cs| - 1]);
        var _ := Timed(last);
        forall row
          ensures Get(rows, row) == Get(old(rows), row) + Charge(cs, row)
        {
          ChargeLast(cs, row);
        }
      } else {
        assert forall row :: Charge(cs, row) == 0.0;
      }
    }

    /** Any sequence of outermost calls: at rest each row holds its calls' exclusive times and the rows sum to
        the total elapsed time. */
    method Session(cs: seq<Call>)
      requires Balanced() && stack == []
      modifies this
      ensures Balanced() && stack == []
      ensures forall row :: Get(rows, row) == Get(old(rows), row) + Charge(cs, row)
      ensures Total(rows) == Total(old(rows)) + TotalElapsed(cs)
    {
      hide Charge, Total;
      assert cs[..0] == [];
      forall row
        ensures Charge(cs[..0], row) == 0.0
      {
        NothingCharged(row);
      }
      for n := 0 to |cs|
        invariant Balanced() && stack == []
        invariant forall row :: Get(rows, row) == Get(old(rows), row) + Charge(cs[..n], row)
        invariant completed == old(completed) + TotalElapsed(cs[..n])
      {
        var _ := Timed(cs[n]);
        assert cs[..n + 1][..n] == cs[..n];
        forall row
          ensures Charge(cs[..n + 1], row) == Charge(cs[..n], row) + Charge([cs[n]], row)
        {
          ChargeLast(cs[..n + 1], row);
        }
      }
      assert cs[..|cs|] == cs;
    }
  }
}
