/** The inverted profile tree: every name with its totals and its callers. */
module BottomUp {
  import opened ProfileTree

  // ---- the callers of one name ------------------------------------------------------------------

  /** The time and calls that one caller accounts for. */
  datatype Share = Share(exclusive: real, calls: int)

  /** The callers of one name: a dictionary with its key order. */
  datatype CallerTable = CallerTable(order: seq<string>, shares: map<string, Share>)

  /** The visit makes `caller` a caller of `name`. */
  predicate IsCaller(vs: seq<Visit>, name: string, caller: string) {
    exists k | 0 <= k < |vs| :: Picks(Called(name, caller), vs[k])
  }

  /** The named callers of a name, in the order in which the walk first met them. */
  function CallersSeen(vs: seq<Visit>, name: string): seq<string> {
    if |vs| == 0 then []
    else
      var callers, v := CallersSeen(vs[..|vs| - 1], name), vs[|vs| - 1];
      if Picks(CalledByName(name), v) && Caller(v.parent) !in callers then callers + [Caller(v.parent)] else callers
  }

  lemma SeenSnoc(vs: seq<Visit>, v: Visit, name: string)
    ensures CallersSeen(vs + [v], name) == CallersSeen(vs, name)
              + if Picks(CalledByName(name), v) && Caller(v.parent) !in CallersSeen(vs, name) then [Caller(v.parent)]
                else []
  {
    assert (vs + [v])[..|vs|] == vs;
  }

  lemma {:induction false} NoneSeen(vs: seq<Visit>, name: string)
    requires forall v | v in vs :: !Picks(CalledByName(name), v)
    ensures CallersSeen(vs, name) == []
  {
    if |vs| > 0 {
      NoneSeen(vs[..|vs| - 1], name);
    }
  }

  /** A table holds each named caller of a name once, in that order, with its totals. */
  ghost predicate Lists(vs: seq<Visit>, t: CallerTable, name: string) {
    && Distinct(t.order) && t.order == CallersSeen(vs, name)
    && (forall c :: c in t.shares <==> c in t.order)
    && (forall c :: c in t.order <==> IsCaller(vs, name, c))
    && forall c | c in t.shares ::
         t.shares[c].exclusive == Total(Exclusive, vs, Called(name, c))
         && t.shares[c].calls as real == Total(Calls, vs, Called(name, c))
  }

  const NO_CALLERS := CallerTable([], map[])

  function Credited(t: CallerTable, caller: string, n: Node): CallerTable {
    var share := if caller in t.shares then t.shares[caller] else Share(0.0, 0);
    CallerTable(
      if caller in t.shares then t.order else t.order + [caller],
      t.shares[caller := Share(share.exclusive + n.exclusive, share.calls + n.calls)])
  }

  lemma CallerSnoc(vs: seq<Visit>, v: Visit, name: string, caller: string)
    ensures IsCaller(vs + [v], name, caller) <==> IsCaller(vs, name, caller) || Picks(Called(name, caller), v)
  {
    hide Picks;
    assert (vs + [v])[|vs|] == v;
    if IsCaller(vs, name, caller) {
      var k :| 0 <= k < |vs| && Picks(Called(name, caller), vs[k]);
      assert (vs + [v])[k] == vs[k];
    }
  }

  lemma NotCalledYet(f: Field, vs: seq<Visit>, name: string, caller: string)
    requires !IsCaller(vs, name, caller)
    ensures Total(f, vs, Called(name, caller)) == 0.0
  {
    NonePicked(f, vs, Called(name, caller));
  }

  /** A visit that is not a named call of the name leaves its table right. */
  lemma ListsSame(vs: seq<Visit>, v: Visit, t: CallerTable, name: string)
    requires Lists(vs, t, name) && !Picks(CalledByName(name), v)
    ensures Lists(vs + [v], t, name)
  {
    hide IsCaller, Total, CallersSeen;
    SeenSnoc(vs, v, name);
    forall c
      ensures c in t.order <==> IsCaller(vs + [v], name, c)
    {
      CallerSnoc(vs, v, name, c);
    }
    forall c | c in t.shares
      ensures t.shares[c].exclusive == Total(Exclusive, vs + [v], Called(name, c))
      ensures t.shares[c].calls as real == Total(Calls, vs + [v], Called(name, c))
    {
      TotalSnoc(Exclusive, vs, v, Called(name, c));
      TotalSnoc(Calls, vs, v, Called(name, c));
    }
  }

  /** A named call is credited to its caller. */
  lemma ListsMore(vs: seq<Visit>, v: Visit, t: CallerTable, name: string)
    requires Lists(vs, t, name) && Picks(CalledByName(name), v)
    ensures Lists(vs + [v], Credited(t, Caller(v.parent), v.node), name)
  {
    hide IsCaller, Total, CallersSeen;
    SeenSnoc(vs, v, name);
    var caller := Caller(v.parent);
    var after := Credited(t, caller, v.node);
    forall c
      ensures c in after.order <==> IsCaller(vs + [v], name, c)
    {
      CallerSnoc(vs, v, name, c);
    }
    if caller !in t.shares {
      NotCalledYet(Exclusive, vs, name, caller);
      NotCalledYet(Calls, vs, name, caller);
    }
    forall c | c in after.shares
      ensures after.shares[c].exclusive == Total(Exclusive, vs + [v], Called(name, c))
      ensures after.shares[c].calls as real == Total(Calls, vs + [v], Called(name, c))
    {
      TotalSnoc(Exclusive, vs, v, Called(name, c));
      TotalSnoc(Calls, vs, v, Called(name, c));
    }
  }

  lemma NoCallersYet(vs: seq<Visit>, name: string)
    requires !exists v :: v in vs && Picks(CalledByName(name), v)
    ensures Lists(vs, NO_CALLERS, name)
  {
    NoneSeen(vs, name);
    forall c, k | 0 <= k < |vs|
      ensures !Picks(Called(name, c), vs[k])
    {
      assert vs[k] in vs;
    }
  }

  // ---- the totals of one name -------------------------------------------------------------------

  /** A callee's row: its totals, and the greatest of zero and its inclusive times. */
  ghost predicate DescribesCallee(vs: seq<Visit>, r: Row, name: string) {
    && r.name == name
    && r.exclusive == Total(Exclusive, vs, Named(name))
    && r.calls as real == Total(Calls, vs, Named(name))
    && 0.0 <= r.inclusive
    && (forall v | v in vs && v.node.name == name :: v.node.inclusive <= r.inclusive)
    && (r.inclusive == 0.0 || exists v :: v in vs && v.node.name == name && v.node.inclusive == r.inclusive)
  }

  lemma CalleeMore(vs: seq<Visit>, v: Visit, r: Row, name: string)
    requires DescribesCallee(vs, r, name)
    ensures DescribesCallee(vs + [v], if v.node.name == name then Merged(r, v.node) else r, name)
  {
    hide Total;
    NoteTotal(Exclusive, vs, v, name);
    NoteTotal(Calls, vs, v, name);
    assert v in vs + [v];
    if r.inclusive != 0.0 {
      var w :| w in vs && w.node.name == name && w.node.inclusive == r.inclusive;
      assert w in vs + [v];
    }
  }

  lemma CalleeFirst(vs: seq<Visit>, name: string)
    requires !Occurs(vs, name)
    ensures DescribesCallee(vs, Row(name, 0.0, 0.0, 0), name)
  {
    NonePicked(Exclusive, vs, Named(name));
    NonePicked(Calls, vs, Named(name));
  }

  function RowAt(totals: map<string, Row>, name: string): Row {
    if name in totals then totals[name] else Row(name, 0.0, 0.0, 0)
  }

  lemma TotalsAfter(vs: seq<Visit>, v: Visit, before: map<string, Row>)
    requires forall name :: name in before <==> Occurs(vs, name)
    requires forall name | name in before :: DescribesCallee(vs, before[name], name)
    ensures forall name | name in before || name == v.node.name ::
              DescribesCallee(vs + [v], before[v.node.name := Merged(RowAt(before, v.node.name), v.node)][name], name)
  {
    hide DescribesCallee, Merged, Occurs;
    forall name | name in before || name == v.node.name
      ensures DescribesCallee(vs + [v], before[v.node.name := Merged(RowAt(before, v.node.name), v.node)][name], name)
    {
      if name !in before {
        CalleeFirst(vs, name);
      }
      CalleeMore(vs, v, RowAt(before, name), name);
    }
  }

  // ---- the walk ---------------------------------------------------------------------------------

  function At(tables: map<string, CallerTable>, name: string): CallerTable {
    if name in tables then tables[name] else NO_CALLERS
  }

  lemma PicksCallers(v: Visit, name: string)
    ensures Picks(CalledByName(name), v) <==> name == v.node.name && Caller(v.parent) != ""
  {
  }

  lemma TablesAfter(vs: seq<Visit>, v: Visit, before: map<string, CallerTable>, after: map<string, CallerTable>)
    requires forall name :: Lists(vs, At(before, name), name)
    requires Caller(v.parent) == "" ==> after == before
    requires Caller(v.parent) != "" ==>
               after == before[v.node.name := Credited(At(before, v.node.name), Caller(v.parent), v.node)]
    ensures forall name :: Lists(vs + [v], At(after, name), name)
  {
    hide Lists, Picks, Credited;
    forall name
      ensures Lists(vs + [v], At(after, name), name)
    {
      PicksCallers(v, name);
      if name == v.node.name && Caller(v.parent) != "" {
        ListsMore(vs, v, At(before, name), name);
      } else {
        ListsSame(vs, v, At(before, name), name);
      }
    }
  }

  class Inverter {
    var totals: map<string, Row>
    var order: seq<string>
    var callees: map<string, CallerTable>
    ghost var seen: seq<Visit>

    ghost predicate Valid()
      reads this
    {
      && order == FirstSeen(seen)
      && (forall name :: name in totals <==> name in order)
      && (forall name | name in totals :: DescribesCallee(seen, totals[name], name))
      && forall name :: Lists(seen, At(callees, name), name)
    }

    constructor ()
      ensures Valid() && seen == []
    {
      totals, order, callees, seen := map[], [], map[], [];
      new;
      forall name
        ensures Lists(seen, At(callees, name), name)
      {
        NoCallersYet([], name);
      }
    }

    method Note(n: Node, parent: Parent)
      requires Valid()
      modifies this
      ensures Valid() && seen == old(seen) + [Visit(n, parent)]
    {
      hide FirstSeen, Occurs, DescribesCallee, Lists, Picks, Merged;
      ghost var v := Visit(n, parent);
      NoteOrder(seen, v);
      TotalsAfter(seen, v, totals);
      ghost var known := totals;
      if n.name !in totals {
        totals := totals[n.name := Row(n.name, 0.0, 0.0, 0)];
        order := order + [n.name];
      }
      totals := totals[n.name := Merged(totals[n.name], n)];
      assert totals == known[n.name := Merged(RowAt(known, n.name), n)];
      NoteCaller(n, parent);
      seen := seen + [v];
    }

    /** Credits the caller of one node, if it has a name. */
    method NoteCaller(n: Node, parent: Parent)
      requires forall name :: Lists(seen, At(callees, name), name)
      modifies this`callees
      ensures forall name :: Lists(seen + [Visit(n, parent)], At(callees, name), name)
    {
      hide Lists, Credited;
      ghost var tables := callees;
      var caller := Caller(parent);
      if caller != "" {
        if n.name !in callees {
          callees := callees[n.name := NO_CALLERS];
        }
        callees := callees[n.name := Credited(callees[n.name], caller, n)];
        assert callees == tables[n.name := Credited(At(tables, n.name), caller, n)];
      }
      TablesAfter(seen, Visit(n, parent), tables, callees);
    }

    method Walk(nodes: seq<Node>, parent: Parent)
      requires Valid()
      modifies this
      ensures Valid() && seen == old(seen) + Visits(nodes, parent)
      decreases nodes
    {
      hide Inverter.Valid;
      for k := 0 to |nodes|
        invariant Valid() && seen == old(seen) + Visits(nodes[..k], parent)
      {
        assert nodes[..k + 1][..k] == nodes[..k];
        Note(nodes[k], parent);
        Walk(nodes[k].children, Under(nodes[k].name));
      }
      assert nodes[..|nodes|] == nodes;
    }
  }

  // ---- sorted callers ---------------------------------------------------------------------------

  /** A row put in its place among rows of descending time, after its equals. */
  function Placed(rows: seq<Row>, r: Row): seq<Row> {
    if |rows| == 0 || rows[|rows| - 1].exclusive >= r.exclusive then rows + [r]
    else Placed(rows[..|rows| - 1], r) + [rows[|rows| - 1]]
  }

  ghost predicate Descending(rows: seq<Row>) {
    forall j, k | 0 <= j < k < |rows| :: rows[j].exclusive >= rows[k].exclusive
  }

  ghost predicate DistinctRows(rows: seq<Row>) {
    forall j, k | 0 <= j < k < |rows| :: rows[j].name != rows[k].name
  }

  lemma {:induction false} PlacedHolds(rows: seq<Row>, r: Row)
    ensures forall x :: x in Placed(rows, r) <==> x in rows || x == r
    ensures |Placed(rows, r)| == |rows| + 1
  {
    if |rows| > 0 {
      PlacedHolds(rows[..|rows| - 1], r);
      assert rows == rows[..|rows| - 1] + [rows[|rows| - 1]];
    }
  }

  lemma {:induction false} PlacedDescends(rows: seq<Row>, r: Row)
    requires Descending(rows)
    ensures Descending(Placed(rows, r))
  {
    if |rows| > 0 && rows[|rows| - 1].exclusive < r.exclusive {
      var last, init := rows[|rows| - 1], rows[..|rows| - 1];
      PlacedDescends(init, r);
      PlacedHolds(init, r);
      forall j | 0 <= j < |Placed(init, r)|
        ensures Placed(init, r)[j].exclusive >= last.exclusive
      {
        assert Placed(init, r)[j] in Placed(init, r);
      }
    }
  }

  lemma {:induction false} PlacedDistinct(rows: seq<Row>, r: Row)
    requires DistinctRows(rows) && forall x | x in rows :: x.name != r.name
    ensures DistinctRows(Placed(rows, r))
  {
    if |rows| > 0 && rows[|rows| - 1].exclusive < r.exclusive {
      var last, init := rows[|rows| - 1], rows[..|rows| - 1];
      PlacedDistinct(init, r);
      PlacedHolds(init, r);
      forall j | 0 <= j < |Placed(init, r)|
        ensures Placed(init, r)[j].name != last.name
      {
        assert Placed(init, r)[j] in Placed(init, r);
      }
    }
  }

  /** One name stands before another. */
  predicate Earlier(order: seq<string>, c: string, d: string) {
    exists p, q | 0 <= p < q < |order| :: order[p] == c && order[q] == d
  }

  /** Rows of equal time stand in a given order of their names. */
  ghost predicate Stable(rows: seq<Row>, order: seq<string>) {
    forall j, k | 0 <= j < k < |rows| && rows[j].exclusive == rows[k].exclusive ::
      Earlier(order, rows[j].name, rows[k].name)
  }

  lemma EarlierSnoc(order: seq<string>, last: string, c: string, d: string)
    ensures Earlier(order, c, d) ==> Earlier(order + [last], c, d)
    ensures c in order ==> Earlier(order + [last], c, last)
  {
    var more := order + [last];
    if Earlier(order, c, d) {
      var p, q :| 0 <= p < q < |order| && order[p] == c && order[q] == d;
      assert more[p] == c && more[q] == d;
    }
    if c in order {
      var p :| 0 <= p < |order| && order[p] == c;
      assert more[p] == c && more[|order|] == last;
    }
  }

  /** A later row goes behind its equals. */
  lemma {:induction false} PlacedStable(rows: seq<Row>, r: Row, order: seq<string>)
    requires Stable(rows, order) && forall x | x in rows :: x.name in order
    ensures Stable(Placed(rows, r), order + [r.name])
  {
    hide Earlier;
    var more := order + [r.name];
    forall c, d
      ensures Earlier(order, c, d) ==> Earlier(more, c, d)
      ensures c in order ==> Earlier(more, c, r.name)
    {
      EarlierSnoc(order, r.name, c, d);
    }
    if |rows| > 0 && rows[|rows| - 1].exclusive < r.exclusive {
      var last, init := rows[|rows| - 1], rows[..|rows| - 1];
      PlacedStable(init, r, order);
      PlacedHolds(init, r);
      forall j | 0 <= j < |Placed(init, r)| && Placed(init, r)[j].exclusive == last.exclusive
        ensures Earlier(more, Placed(init, r)[j].name, last.name)
      {
        var x := Placed(init, r)[j];
        assert x in Placed(init, r) && x in init;
        var i :| 0 <= i < |init| && init[i] == x;
        assert rows[i] == x && Earlier(order, rows[i].name, rows[|rows| - 1].name);
      }
    } else {
      forall j | 0 <= j < |rows|
        ensures Earlier(more, rows[j].name, r.name)
      {
        assert rows[j] in rows;
      }
    }
  }

  /** The dictionary's items as rows, by descending time, equals in key order. */
  method SortedCallers(t: CallerTable) returns (rows: seq<Row>)
    requires Distinct(t.order) && forall c :: c in t.shares <==> c in t.order
    ensures Descending(rows) && DistinctRows(rows) && Stable(rows, t.order)
    ensures forall r | r in rows ::
              r.name in t.shares && r == Row(r.name, t.shares[r.name].exclusive, t.shares[r.name].exclusive,
                                             t.shares[r.name].calls)
    ensures forall c | c in t.shares :: exists k | 0 <= k < |rows| :: rows[k].name == c
  {
    hide Stable, Descending, DistinctRows, Placed;
    rows := [];
    NothingPlaced(t.order[..0]);
    for k := 0 to |t.order|
      invariant Descending(rows) && DistinctRows(rows) && Stable(rows, t.order[..k])
      invariant forall r :: r in rows <==> exists j | 0 <= j < k :: r == CallerRow(t, t.order[j])
    {
      var r := CallerRow(t, t.order[k]);
      PlacedHolds(rows, r);
      PlacedDescends(rows, r);
      PlacedDistinct(rows, r);
      PlacedStable(rows, r, t.order[..k]);
      assert t.order[..k + 1] == t.order[..k] + [r.name];
      rows := Placed(rows, r);
    }
    assert t.order[..|t.order|] == t.order;
    forall c | c in t.shares
      ensures exists k | 0 <= k < |rows| :: rows[k].name == c
    {
      var j :| 0 <= j < |t.order| && t.order[j] == c;
      assert CallerRow(t, c) in rows;
    }
  }

  lemma NothingPlaced(order: seq<string>)
    ensures Descending([]) && DistinctRows([]) && Stable([], order)
  {
  }

  function CallerRow(t: CallerTable, c: string): Row
    requires c in t.shares
  {
    Row(c, t.shares[c].exclusive, t.shares[c].exclusive, t.shares[c].calls)
  }

  // ---- conservation -----------------------------------------------------------------------------

  function CalledEach(name: string, rows: seq<Row>): seq<Choice> {
    seq(|rows|, k requires 0 <= k < |rows| => Called(name, rows[k].name))
  }

  /** The rows list the named callers of a name, each once and with its totals. */
  ghost predicate CallersOf(vs: seq<Visit>, name: string, rows: seq<Row>) {
    && DistinctRows(rows)
    && (forall r, f: Field | r in rows :: RowWeight(f, r) == Total(f, vs, Called(name, r.name)))
    && (forall r | r in rows :: IsCaller(vs, name, r.name) && r.inclusive == r.exclusive)
    && forall c | IsCaller(vs, name, c) :: exists k | 0 <= k < |rows| :: rows[k].name == c
  }

  /** Callers account for every visit under a named parent, once. */
  lemma CallersConserve(f: Field, vs: seq<Visit>, name: string, rows: seq<Row>)
    requires CallersOf(vs, name, rows)
    ensures RowsTotal(f, rows) == Total(f, vs, CalledByName(name))
  {
    hide Total, RowsTotal, RowWeight, SumOver;
    var cs := CalledEach(name, rows);
    forall k | 0 <= k < |rows|
      ensures RowWeight(f, rows[k]) == Total(f, vs, cs[k])
    {
      assert rows[k] in rows;
    }
    RowsAreTotals(f, vs, rows, cs);
    forall v | v in vs
      ensures Splits(CalledByName(name), cs, v)
    {
      if Picks(CalledByName(name), v) {
        var j :| 0 <= j < |vs| && vs[j] == v;
        assert Picks(Called(name, Caller(v.parent)), vs[j]);
        assert IsCaller(vs, name, Caller(v.parent));
        var k :| 0 <= k < |rows| && rows[k].name == Caller(v.parent);
        assert Picks(cs[k], v);
      }
    }
    SplitTotal(f, vs, CalledByName(name), cs);
  }

  /** One callee of the inverted tree. */
  datatype Callee = Callee(row: Row, callers: seq<Row>)

  /** What the view promises of one callee: its totals, its callers, and where its time and calls come from. */
  ghost predicate Accounted(vs: seq<Visit>, e: Callee) {
    && DescribesCallee(vs, e.row, e.row.name)
    && (forall f: Field :: RowWeight(f, e.row) == Total(f, vs, Named(e.row.name)))
    && CallersOf(vs, e.row.name, e.callers)
    && Descending(e.callers) && Stable(e.callers, CallersSeen(vs, e.row.name))
    && forall f: Field :: RowWeight(f, e.row)
                       == RowsTotal(f, e.callers) + Total(f, vs, AtRoot(e.row.name))
                         + Total(f, vs, UnderNameless(e.row.name))
  }

  lemma AccountedWhen(vs: seq<Visit>, row: Row, t: CallerTable, callers: seq<Row>)
    requires DescribesCallee(vs, row, row.name) && Lists(vs, t, row.name)
    requires Descending(callers) && DistinctRows(callers) && Stable(callers, t.order)
    requires forall r | r in callers :: r.name in t.shares && r == CallerRow(t, r.name)
    requires forall c | c in t.shares :: exists k | 0 <= k < |callers| :: callers[k].name == c
    ensures Accounted(vs, Callee(row, callers))
  {
    hide Total, RowsTotal, IsCaller, DistinctRows, Descending, Stable, CallersSeen;
    forall f: Field
      ensures RowWeight(f, row) == Total(f, vs, Named(row.name))
      ensures RowWeight(f, row) == RowsTotal(f, callers) + Total(f, vs, AtRoot(row.name))
                + Total(f, vs, UnderNameless(row.name))
    {
      CallersConserve(f, vs, row.name, callers);
      WhereTimeGoes(f, vs, row.name);
    }
  }

  /** The bottom-up view: each name of the tree once, in order of first visit.  Its totals are its callers' and its
      occurrences at the root or under nodes named ""; all names together conserve the tree's totals. */
  method BuildBottomUp(nodes: seq<Node>) returns (view: seq<Callee>)
    ensures |view| == |FirstSeen(Visits(nodes, Root))|
    ensures forall k | 0 <= k < |view| ::
              view[k].row.name == FirstSeen(Visits(nodes, Root))[k] && Accounted(Visits(nodes, Root), view[k])
    ensures forall f: Field :: RowsTotal(f, seq(|view|, k requires 0 <= k < |view| => view[k].row))
              == TreeTotal(f, nodes)
  {
    hide FirstSeen, Visits, Total, TreeTotal, RowsTotal, RowWeight, Lists, Accounted, DescribesCallee, Descending,
         DistinctRows, Distinct, Stable, At;
    var inv := new Inverter();
    inv.Walk(nodes, Root);
    ghost var vs := Visits(nodes, Root);
    assert inv.seen == vs;
    var order, totals, callees := inv.order, inv.totals, inv.callees;
    view := [];
    ghost var names := FirstSeen(vs);
    assert order == names && (forall name | name in order :: name in totals && DescribesCallee(vs, totals[name], name));
    assert forall name :: Lists(vs, At(callees, name), name);
    for k := 0 to |order|
      invariant |view| == k && forall j | 0 <= j < k :: view[j].row.name == order[j] && Accounted(vs, view[j])
    {
      var name := order[k];
      var t := At(callees, name);
      OrderOfTable(vs, t, name);
      var callers := SortedCallers(t);
      NameOfRow(vs, totals[name], name);
      AccountedWhen(vs, totals[name], t, callers);
      view := view + [Callee(totals[name], callers)];
    }
    ViewConserves(nodes, view);
  }

  lemma OrderOfTable(vs: seq<Visit>, t: CallerTable, name: string)
    requires Lists(vs, t, name)
    ensures Distinct(t.order) && forall c :: c in t.shares <==> c in t.order
  {
  }

  lemma NameOfRow(vs: seq<Visit>, r: Row, name: string)
    requires DescribesCallee(vs, r, name)
    ensures r.name == name
  {
  }

  lemma ViewConserves(nodes: seq<Node>, view: seq<Callee>)
    requires |view| == |FirstSeen(Visits(nodes, Root))|
    requires forall k | 0 <= k < |view| ::
               view[k].row.name == FirstSeen(Visits(nodes, Root))[k] && Accounted(Visits(nodes, Root), view[k])
    ensures forall f: Field :: RowsTotal(f, seq(|view|, k requires 0 <= k < |view| => view[k].row))
              == TreeTotal(f, nodes)
  {
    hide FirstSeen, Visits, Total, TreeTotal, RowsTotal;
    forall f: Field
      ensures RowsTotal(f, seq(|view|, k requires 0 <= k < |view| => view[k].row)) == TreeTotal(f, nodes)
    {
      NamesConserve(f, nodes, seq(|view|, k requires 0 <= k < |view| => view[k].row));
    }
  }

  /** A callee's time is its callers' and its root occurrences' exactly when what runs under nodes named "" adds up to
      nothing. */
  lemma CallersAndRoots(f: Field, vs: seq<Visit>, e: Callee)
    requires Accounted(vs, e)
    ensures RowWeight(f, e.row) == RowsTotal(f, e.callers) + Total(f, vs, AtRoot(e.row.name))
       <==> Total(f, vs, UnderNameless(e.row.name)) == 0.0
  {
  }

  /** A total of weights that are not negative is zero only if each of them is. */
  lemma {:induction false} ZeroTotal(f: Field, vs: seq<Visit>, c: Choice)
    requires forall v | v in vs && Picks(c, v) :: Weight(f, v.node) >= 0.0
    ensures Total(f, vs, c) >= 0.0
    ensures Total(f, vs, c) == 0.0 <==> forall v | v in vs && Picks(c, v) :: Weight(f, v.node) == 0.0
  {
    hide Picks, Weight;
    if |vs| > 0 {
      var init, last := vs[..|vs| - 1], vs[|vs| - 1];
      assert vs == init + [last];
      ZeroTotal(f, init, c);
      assert (forall v | v in vs && Picks(c, v) :: Weight(f, v.node) == 0.0) <==>
             (forall v | v in init && Picks(c, v) :: Weight(f, v.node) == 0.0) &&
             (Picks(c, last) ==> Weight(f, last.node) == 0.0);
    }
  }

  /** With times that are not negative: exactly when every occurrence under a node named "" took no time. */
  lemma CallersAndRootsSuffice(f: Field, vs: seq<Visit>, e: Callee)
    requires Accounted(vs, e)
    requires forall v | v in vs && Picks(UnderNameless(e.row.name), v) :: Weight(f, v.node) >= 0.0
    ensures RowWeight(f, e.row) == RowsTotal(f, e.callers) + Total(f, vs, AtRoot(e.row.name))
       <==> forall v | v in vs && Picks(UnderNameless(e.row.name), v) :: Weight(f, v.node) == 0.0
  {
    hide Picks, Weight, Accounted;
    CallersAndRoots(f, vs, e);
    ZeroTotal(f, vs, UnderNameless(e.row.name));
  }

  /** With positive times or counts: exactly when the walk never meets the callee under a node named "". */
  lemma NeverUnderNameless(f: Field, vs: seq<Visit>, e: Callee)
    requires Accounted(vs, e)
    requires forall v | v in vs && Picks(UnderNameless(e.row.name), v) :: Weight(f, v.node) > 0.0
    ensures RowWeight(f, e.row) == RowsTotal(f, e.callers) + Total(f, vs, AtRoot(e.row.name))
       <==> !exists v :: v in vs && Picks(UnderNameless(e.row.name), v)
  {
    hide Picks, Weight, Accounted;
    CallersAndRootsSuffice(f, vs, e);
  }

  /** One call under a node without a name: its callers and root occurrences account for none of its time. */
  function Orphan(): seq<Node> { [Node("", 0.0, 3.0, 1, [Node("a", 1.0, 2.0, 4, [])])] }

  lemma OrphanFallsShort(e: Callee)
    requires Accounted(Visits(Orphan(), Root), e) && e.row.name == "a"
    ensures RowWeight(Exclusive, e.row) == 1.0
    ensures RowsTotal(Exclusive, e.callers) + Total(Exclusive, Visits(Orphan(), Root), AtRoot("a")) == 0.0
  {
    hide Accounted, RowsTotal;
    OrphanVisits();
    var vs := Visits(Orphan(), Root);
    OrphanTotals(vs);
    AccountedMeans(vs, e);
  }

  lemma AccountedMeans(vs: seq<Visit>, e: Callee)
    requires Accounted(vs, e)
    ensures forall f: Field :: RowWeight(f, e.row) == Total(f, vs, Named(e.row.name))
    ensures forall f: Field :: RowWeight(f, e.row)
                            == RowsTotal(f, e.callers) + Total(f, vs, AtRoot(e.row.name))
                              + Total(f, vs, UnderNameless(e.row.name))
  {
  }

  lemma OrphanVisits()
    ensures Visits(Orphan(), Root)
         == [Visit(Orphan()[0], Root), Visit(Node("a", 1.0, 2.0, 4, []), Under(""))]
  {
    var a := Node("a", 1.0, 2.0, 4, []);
    assert Visits([], Root) == [] && Visits([], Under("")) == [] && Visits([], Under("a")) == [];
    assert [a][..0] == [] && Visits([a], Under("")) == [Visit(a, Under(""))];
    assert Orphan()[..0] == [] && Orphan()[0].children == [a];
  }

  lemma OrphanTotals(vs: seq<Visit>)
    requires vs == [Visit(Orphan()[0], Root), Visit(Node("a", 1.0, 2.0, 4, []), Under(""))]
    ensures Total(Exclusive, vs, Named("a")) == Total(Exclusive, vs, UnderNameless("a")) == 1.0
    ensures Total(Exclusive, vs, AtRoot("a")) == 0.0
  {
    TwoVisits(Exclusive, vs[0], vs[1], Named("a"));
    TwoVisits(Exclusive, vs[0], vs[1], UnderNameless("a"));
    TwoVisits(Exclusive, vs[0], vs[1], AtRoot("a"));
    assert Orphan()[0].name != "a";
  }

  lemma TwoVisits(f: Field, v: Visit, w: Visit, c: Choice)
    ensures Total(f, [v, w], c) == (if Picks(c, v) then Weight(f, v.node) else 0.0)
              + if Picks(c, w) then Weight(f, w.node) else 0.0
  {
    hide Picks, Weight;
    assert [v, w] == [v] + [w] && [v] == [] + [v];
    TotalSnoc(f, [v], w, c);
    TotalSnoc(f, [], v, c);
  }

  /** In a tree whose nodes all have names, nothing runs under a node named "". */
  lemma NamedTreesAccount(f: Field, nodes: seq<Node>, name: string)
    requires AllNamed(nodes)
    ensures Total(f, Visits(nodes, Root), UnderNameless(name)) == 0.0
  {
    NamedParents(nodes, Root);
    NonePicked(f, Visits(nodes, Root), UnderNameless(name));
  }
}
