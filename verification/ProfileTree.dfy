/** The flat and the bottom-up view of a profile tree: both hold each name once and conserve time and calls. */
module ProfileTree {

  datatype Node = Node(name: string, exclusive: real, inclusive: real, calls: int, children: seq<Node>)

  datatype Parent = Root | Under(name: string)

  /** One step of a walk: a node and what it hangs from. */
  datatype Visit = Visit(node: Node, parent: Parent)

  /** The caller's name the walk passes down: empty at the root, and also under a node named "". */
  function Caller(p: Parent): string { if p.Root? then "" else p.name }

  /** Every node of a forest with its parent, each parent before its children. */
  function Visits(nodes: seq<Node>, parent: Parent): seq<Visit>
    decreases nodes
  {
    if |nodes| == 0 then []
    else
      var n := nodes[|nodes| - 1];
      Visits(nodes[..|nodes| - 1], parent) + [Visit(n, parent)] + Visits(n.children, Under(n.name))
  }

  // ---- what is added up -------------------------------------------------------------------------

  datatype Field = Exclusive | Calls

  function Weight(f: Field, n: Node): real { if f.Exclusive? then n.exclusive else n.calls as real }

  /** Which visits are counted. */
  datatype Choice =
    | Everything
    | Named(name: string)
    | Called(name: string, caller: string)
    | CalledByName(name: string)
    | AtRoot(name: string)
    | UnderNameless(name: string)

  predicate Picks(c: Choice, v: Visit) {
    match c
    case Everything => true
    case Named(name) => v.node.name == name
    case Called(name, caller) => v.node.name == name && caller != "" && Caller(v.parent) == caller
    case CalledByName(name) => v.node.name == name && Caller(v.parent) != ""
    case AtRoot(name) => v.node.name == name && v.parent == Root
    case UnderNameless(name) => v.node.name == name && v.parent == Under("")
  }

  function Total(f: Field, vs: seq<Visit>, c: Choice): real {
    if |vs| == 0 then 0.0
    else Total(f, vs[..|vs| - 1], c) + if Picks(c, vs[|vs| - 1]) then Weight(f, vs[|vs| - 1].node) else 0.0
  }

  lemma TotalSnoc(f: Field, vs: seq<Visit>, v: Visit, c: Choice)
    ensures Total(f, vs + [v], c) == Total(f, vs, c) + if Picks(c, v) then Weight(f, v.node) else 0.0
  {
    assert (vs + [v])[..|vs|] == vs;
  }

  lemma {:induction false} TotalConcat(f: Field, a: seq<Visit>, b: seq<Visit>, c: Choice)
    ensures Total(f, a + b, c) == Total(f, a, c) + Total(f, b, c)
  {
    if |b| == 0 {
      assert a + b == a;
    } else {
      TotalConcat(f, a, b[..|b| - 1], c);
      assert (a + b)[..|a + b| - 1] == a + b[..|b| - 1];
    }
  }

  /** The sum of a field over a whole tree, node by node: what sum_exclusive computes. */
  function TreeTotal(f: Field, nodes: seq<Node>): real
    decreases nodes
  {
    if |nodes| == 0 then 0.0
    else
      var last := nodes[|nodes| - 1];
      TreeTotal(f, nodes[..|nodes| - 1]) + (Weight(f, last) + TreeTotal(f, last.children))
  }

  method SumExclusive(nodes: seq<Node>) returns (total: real)
    ensures total == TreeTotal(Exclusive, nodes)
    decreases nodes
  {
    total := 0.0;
    for k := 0 to |nodes|
      invariant total == TreeTotal(Exclusive, nodes[..k])
    {
      assert nodes[..k + 1][..k] == nodes[..k];
      var below := SumExclusive(nodes[k].children);
      total := total + (nodes[k].exclusive + below);
    }
    assert nodes[..|nodes|] == nodes;
  }

  /** Adding up the visits is adding up the tree. */
  lemma {:induction false} VisitsTotal(f: Field, nodes: seq<Node>, parent: Parent)
    ensures Total(f, Visits(nodes, parent), Everything) == TreeTotal(f, nodes)
    decreases nodes
  {
    if |nodes| > 0 {
      var n := nodes[|nodes| - 1];
      var init := nodes[..|nodes| - 1];
      VisitsTotal(f, init, parent);
      VisitsTotal(f, n.children, Under(n.name));
      TotalSnoc(f, Visits(init, parent), Visit(n, parent), Everything);
      TotalConcat(f, Visits(init, parent) + [Visit(n, parent)], Visits(n.children, Under(n.name)), Everything);
    }
  }

  // ---- choices that split a total -----------------------------------------------------------------

  function SumOver(f: Field, vs: seq<Visit>, cs: seq<Choice>): real {
    if |cs| == 0 then 0.0 else SumOver(f, vs, cs[..|cs| - 1]) + Total(f, vs, cs[|cs| - 1])
  }

  /** The choices pick what the whole picks, each visit once. */
  ghost predicate Splits(whole: Choice, cs: seq<Choice>, v: Visit) {
    && (forall j, k | 0 <= j < k < |cs| :: !(Picks(cs[j], v) && Picks(cs[k], v)))
    && (Picks(whole, v) <==> exists k | 0 <= k < |cs| :: Picks(cs[k], v))
  }

  lemma {:induction false} SumOverNothing(f: Field, cs: seq<Choice>)
    ensures SumOver(f, [], cs) == 0.0
  {
    if |cs| > 0 {
      SumOverNothing(f, cs[..|cs| - 1]);
    }
  }

  lemma {:induction false} SumOverUnpicked(f: Field, vs: seq<Visit>, v: Visit, cs: seq<Choice>)
    requires forall k | 0 <= k < |cs| :: !Picks(cs[k], v)
    ensures SumOver(f, vs + [v], cs) == SumOver(f, vs, cs)
  {
    hide Picks;
    if |cs| > 0 {
      SumOverUnpicked(f, vs, v, cs[..|cs| - 1]);
      TotalSnoc(f, vs, v, cs[|cs| - 1]);
    }
  }

  lemma {:induction false} SumOverPicked(f: Field, vs: seq<Visit>, v: Visit, cs: seq<Choice>, k: nat)
    requires k < |cs| && Picks(cs[k], v) && forall j | 0 <= j < |cs| && j != k :: !Picks(cs[j], v)
    ensures SumOver(f, vs + [v], cs) == SumOver(f, vs, cs) + Weight(f, v.node)
  {
    hide Picks;
    var last := |cs| - 1;
    TotalSnoc(f, vs, v, cs[last]);
    if k == last {
      SumOverUnpicked(f, vs, v, cs[..last]);
    } else {
      SumOverPicked(f, vs, v, cs[..last], k);
    }
  }

  /** Choices that split every visit add up to the whole. */
  lemma {:induction false} SplitTotal(f: Field, vs: seq<Visit>, whole: Choice, cs: seq<Choice>)
    requires forall v | v in vs :: Splits(whole, cs, v)
    ensures SumOver(f, vs, cs) == Total(f, vs, whole)
  {
    hide Picks;
    if |vs| == 0 {
      SumOverNothing(f, cs);
    } else {
      var v, init := vs[|vs| - 1], vs[..|vs| - 1];
      assert vs == init + [v];
      SplitTotal(f, init, whole, cs);
      TotalSnoc(f, init, v, whole);
      assert Splits(whole, cs, v);
      if Picks(whole, v) {
        var k :| 0 <= k < |cs| && Picks(cs[k], v);
        SumOverPicked(f, init, v, cs, k);
      } else {
        SumOverUnpicked(f, init, v, cs);
      }
    }
  }

  /** What a name holds is what named callers account for, its root occurrences, and its occurrences under nodes
      named "". */
  lemma {:induction false} WhereTimeGoes(f: Field, vs: seq<Visit>, name: string)
    ensures Total(f, vs, Named(name))
         == Total(f, vs, CalledByName(name)) + Total(f, vs, AtRoot(name)) + Total(f, vs, UnderNameless(name))
  {
    if |vs| > 0 {
      WhereTimeGoes(f, vs[..|vs| - 1], name);
    }
  }

  ghost predicate AllNamed(nodes: seq<Node>)
    decreases nodes
  {
    forall k | 0 <= k < |nodes| :: nodes[k].name != "" && AllNamed(nodes[k].children)
  }

  lemma {:induction false} NamedParents(nodes: seq<Node>, parent: Parent)
    requires AllNamed(nodes) && parent != Under("")
    ensures forall v | v in Visits(nodes, parent) :: v.parent != Under("")
    decreases nodes
  {
    if |nodes| > 0 {
      NamedParents(nodes[..|nodes| - 1], parent);
      NamedParents(nodes[|nodes| - 1].children, Under(nodes[|nodes| - 1].name));
    }
  }

  lemma {:induction false} NonePicked(f: Field, vs: seq<Visit>, c: Choice)
    requires forall v | v in vs :: !Picks(c, v)
    ensures Total(f, vs, c) == 0.0
  {
    if |vs| > 0 {
      NonePicked(f, vs[..|vs| - 1], c);
    }
  }

  // ---- rows ---------------------------------------------------------------------------------------

  /** One row of a view. */
  datatype Row = Row(name: string, exclusive: real, inclusive: real, calls: int)

  function RowWeight(f: Field, r: Row): real { if f.Exclusive? then r.exclusive else r.calls as real }

  function RowsTotal(f: Field, rows: seq<Row>): real {
    if |rows| == 0 then 0.0 else RowsTotal(f, rows[..|rows| - 1]) + RowWeight(f, rows[|rows| - 1])
  }

  function Max(a: real, b: real): real { if a < b then b else a }

  ghost predicate Distinct(names: seq<string>) { forall j, k | 0 <= j < k < |names| :: names[j] != names[k] }

  predicate Occurs(vs: seq<Visit>, name: string) { exists k | 0 <= k < |vs| :: vs[k].node.name == name }

  /** Names in the order of their first visit: the key order of a dictionary filled by the walk. */
  function FirstSeen(vs: seq<Visit>): (names: seq<string>)
    ensures Distinct(names) && forall name :: name in names <==> Occurs(vs, name)
  {
    if |vs| == 0 then []
    else
      var names, name := FirstSeen(vs[..|vs| - 1]), vs[|vs| - 1].node.name;
      assert vs == vs[..|vs| - 1] + [vs[|vs| - 1]];
      if name in names then names else names + [name]
  }

  /** The rows of a view, by choice: rows whose weights are the totals of the choices sum to the sum of those. */
  lemma {:induction false} RowsAreTotals(f: Field, vs: seq<Visit>, rows: seq<Row>, cs: seq<Choice>)
    requires |rows| == |cs| && forall k | 0 <= k < |rows| :: RowWeight(f, rows[k]) == Total(f, vs, cs[k])
    ensures RowsTotal(f, rows) == SumOver(f, vs, cs)
  {
    if |rows| > 0 {
      RowsAreTotals(f, vs, rows[..|rows| - 1], cs[..|cs| - 1]);
    }
  }

  function NamedEach(names: seq<string>): seq<Choice> {
    seq(|names|, k requires 0 <= k < |names| => Named(names[k]))
  }

  /** Rows that hold each name's total conserve the whole tree's. */
  lemma NamesConserve(f: Field, nodes: seq<Node>, rows: seq<Row>)
    requires |rows| == |FirstSeen(Visits(nodes, Root))|
    requires forall k | 0 <= k < |rows| ::
               RowWeight(f, rows[k]) == Total(f, Visits(nodes, Root), Named(FirstSeen(Visits(nodes, Root))[k]))
    ensures RowsTotal(f, rows) == TreeTotal(f, nodes)
  {
    hide Visits, Total, TreeTotal, RowsTotal, SumOver, RowWeight, FirstSeen;
    var vs := Visits(nodes, Root);
    var names := FirstSeen(vs);
    RowsAreTotals(f, vs, rows, NamedEach(names));
    forall v | v in vs
      ensures Splits(Everything, NamedEach(names), v)
    {
      var j :| 0 <= j < |vs| && vs[j] == v;
      assert Occurs(vs, v.node.name) && v.node.name in names;
      var k :| 0 <= k < |names| && names[k] == v.node.name;
      assert Picks(NamedEach(names)[k], v);
    }
    SplitTotal(f, vs, Everything, NamedEach(names));
    VisitsTotal(f, nodes, Root);
  }

  // ---- the flat view ------------------------------------------------------------------------------

  /** A row holds its name's totals and the greatest of its inclusive times. */
  ghost predicate Describes(vs: seq<Visit>, r: Row, name: string) {
    && r.name == name
    && r.exclusive == Total(Exclusive, vs, Named(name))
    && r.calls as real == Total(Calls, vs, Named(name))
    && (forall v | v in vs && v.node.name == name :: v.node.inclusive <= r.inclusive)
    && exists v :: v in vs && v.node.name == name && v.node.inclusive == r.inclusive
  }

  /** The row after one more visit of its name. */
  function Merged(r: Row, n: Node): Row {
    Row(r.name, r.exclusive + n.exclusive, Max(r.inclusive, n.inclusive), r.calls + n.calls)
  }

  lemma DescribesMore(vs: seq<Visit>, v: Visit, r: Row, name: string)
    requires Describes(vs, r, name)
    ensures Describes(vs + [v], if v.node.name == name then Merged(r, v.node) else r, name)
  {
    hide Total;
    NoteTotal(Exclusive, vs, v, name);
    NoteTotal(Calls, vs, v, name);
    var w :| w in vs && w.node.name == name && w.node.inclusive == r.inclusive;
    assert w in vs + [v] && v in vs + [v];
  }

  lemma DescribesFirst(vs: seq<Visit>, v: Visit)
    requires !Occurs(vs, v.node.name)
    ensures Describes(vs + [v], Row(v.node.name, v.node.exclusive, v.node.inclusive, v.node.calls), v.node.name)
  {
    hide Total;
    NoteTotal(Exclusive, vs, v, v.node.name);
    NoteTotal(Calls, vs, v, v.node.name);
    assert v in vs + [v];
  }

  class Flat {
    var agg: map<string, Row>
    var order: seq<string>
    ghost var seen: seq<Visit>

    ghost predicate Valid()
      reads this
    {
      && order == FirstSeen(seen)
      && (forall name :: name in agg <==> name in order)
      && forall name | name in agg :: Describes(seen, agg[name], name)
    }

    constructor ()
      ensures Valid() && seen == []
    {
      agg, order, seen := map[], [], [];
    }

    /** Adds one node to its row. */
    method Note(n: Node, ghost parent: Parent)
      requires Valid()
      modifies this
      ensures Valid() && seen == old(seen) + [Visit(n, parent)]
    {
      hide FirstSeen, Occurs, Describes;
      ghost var v, before, table := Visit(n, parent), seen, agg;
      NoteOrder(before, v);
      if n.name in agg {
        agg := agg[n.name := Merged(agg[n.name], n)];
      } else {
        DescribesFirst(before, v);
        agg := agg[n.name := Row(n.name, n.exclusive, n.inclusive, n.calls)];
        order := order + [n.name];
      }
      seen := seen + [v];
      forall name | name in table
        ensures Describes(seen, agg[name], name)
      {
        DescribesMore(before, v, table[name], name);
      }
    }

    /** The recursive walk over a list of nodes. */
    method Walk(nodes: seq<Node>, ghost parent: Parent)
      requires Valid()
      modifies this
      ensures Valid() && seen == old(seen) + Visits(nodes, parent)
      decreases nodes
    {
      hide Flat.Valid;
      for k := 0 to |nodes|
        invariant Valid() && seen == old(seen) + Visits(nodes[..k], parent)
      {
        assert nodes[..k + 1][..k] == nodes[..k];
        Note(nodes[k], parent);
        Walk(nodes[k].children, Under(nodes[k].name));
      }
      assert nodes[..|nodes|] == nodes;
    }
  }

  /** What one more visit does to the total of a name. */
  lemma NoteTotal(f: Field, vs: seq<Visit>, v: Visit, name: string)
    ensures Total(f, vs + [v], Named(name)) == Total(f, vs, Named(name)) + if v.node.name
              == name then Weight(f, v.node) else 0.0
    ensures !Occurs(vs, name) ==> Total(f, vs, Named(name)) == 0.0
  {
    hide Total;
    TotalSnoc(f, vs, v, Named(name));
    if !Occurs(vs, name) {
      NonePicked(f, vs, Named(name));
    }
  }

  lemma NoteOrder(vs: seq<Visit>, v: Visit)
    ensures FirstSeen(vs + [v]) == FirstSeen(vs) + if Occurs(vs, v.node.name) then [] else [v.node.name]
  {
    assert (vs + [v])[..|vs|] == vs;
    assert FirstSeen(vs) + [] == FirstSeen(vs);
  }

  /** The flat view: each name of the tree once, in order of first visit, with its totals; together the rows
      conserve the tree's exclusive time and calls. */
  method AggregateFlat(nodes: seq<Node>) returns (rows: seq<Row>)
    ensures |rows| == |FirstSeen(Visits(nodes, Root))|
    ensures forall k | 0 <= k < |rows| :: rows[k].name == FirstSeen(Visits(nodes, Root))[k]
    ensures forall k | 0 <= k < |rows| :: Describes(Visits(nodes, Root), rows[k], rows[k].name)
    ensures forall f: Field :: RowsTotal(f, rows) == TreeTotal(f, nodes)
  {
    hide FirstSeen, Visits, Total, TreeTotal, RowsTotal;
    var flat := new Flat();
    flat.Walk(nodes, Root);
    assert flat.seen == Visits(nodes, Root);
    rows := [];
    for k := 0 to |flat.order|
      invariant |rows| == k && forall j | 0 <= j < k :: rows[j] == flat.agg[flat.order[j]]
    {
      rows := rows + [flat.agg[flat.order[k]]];
    }
    assert forall j | 0 <= j < |rows| :: Describes(flat.seen, rows[j], flat.order[j]);
    forall f: Field
      ensures RowsTotal(f, rows) == TreeTotal(f, nodes)
    {
      NamesConserve(f, nodes, rows);
    }
  }
}
