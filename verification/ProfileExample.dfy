/** Both views of one small tree, in numbers: "a" calls "b", which calls "a" again. */
module ProfileExample {
  import opened ProfileTree
  import opened BottomUp

  function Inner(): Node { Node("a", 2.0, 3.0, 1, []) }
  function Middle(): Node { Node("b", 4.0, 5.0, 7, [Inner()]) }
  function Outer(): Node { Node("a", 1.0, 6.0, 2, [Middle()]) }
  function Tree(): seq<Node> { [Outer()] }

  function Walked(): seq<Visit> {
    [Visit(Outer(), Root), Visit(Middle(), Under("a")), Visit(Inner(), Under("b"))]
  }

  /** The walk goes down the tree, parents first. */
  lemma TreeWalked()
    ensures Visits(Tree(), Root) == Walked()
  {
    assert Visits([], Root) == [] && Visits([], Under("a")) == [] && Visits([], Under("b")) == [];
    assert [Inner()][..0] == [] && Visits([Inner()], Under("b")) == [Visit(Inner(), Under("b"))];
    assert [Middle()][..0] == [];
    assert Visits([Middle()], Under("a")) == [Visit(Middle(), Under("a")), Visit(Inner(), Under("b"))];
    assert Tree()[..0] == [];
  }

  lemma ThreeVisits(f: Field, c: Choice)
    ensures Total(f, Walked(), c)
         == (if Picks(c, Walked()[0]) then Weight(f, Outer()) else 0.0)
          + (if Picks(c, Walked()[1]) then Weight(f, Middle()) else 0.0)
          + (if Picks(c, Walked()[2]) then Weight(f, Inner()) else 0.0)
  {
    hide Picks, Weight;
    var u, v, w := Walked()[0], Walked()[1], Walked()[2];
    assert Walked() == [u, v] + [w] && [u, v] == [u] + [v] && [u] == [] + [u];
    TotalSnoc(f, [u, v], w, c);
    TotalSnoc(f, [u], v, c);
    TotalSnoc(f, [], u, c);
  }

  lemma NamesSeen()
    ensures FirstSeen(Walked()) == ["a", "b"]
  {
    hide FirstSeen;
    var u, v, w := Walked()[0], Walked()[1], Walked()[2];
    assert Walked() == [u, v] + [w] && [u, v] == [u] + [v] && [u] == [] + [u];
    NoteOrder([u, v], w);
    NoteOrder([u], v);
    NoteOrder([], u);
    NothingSeen();
    assert [u, v][0].node.name == "a";
    assert !Occurs([], "a") && !Occurs([u], "b") && Occurs([u, v], "a");
  }

  lemma NothingSeen()
    ensures FirstSeen([]) == []
  {
  }

  lemma NameTotals()
    ensures Total(Exclusive, Walked(), Named("a")) == 3.0 && Total(Calls, Walked(), Named("a")) == 3.0
    ensures Total(Exclusive, Walked(), Named("b")) == 4.0 && Total(Calls, Walked(), Named("b")) == 7.0
  {
    ThreeVisits(Exclusive, Named("a"));
    ThreeVisits(Calls, Named("a"));
    ThreeVisits(Exclusive, Named("b"));
    ThreeVisits(Calls, Named("b"));
  }

  /** A row that describes "a" or "b" holds these numbers. */
  lemma RowsAre(r: Row)
    ensures Describes(Walked(), r, "a") || DescribesCallee(Walked(), r, "a") ==> r == Row("a", 3.0, 6.0, 3)
    ensures Describes(Walked(), r, "b") || DescribesCallee(Walked(), r, "b") ==> r == Row("b", 4.0, 5.0, 7)
  {
    hide Total;
    NameTotals();
    assert Walked()[0] in Walked() && Walked()[1] in Walked() && Walked()[2] in Walked();
    assert forall v | v in Walked() :: v == Walked()[0] || v == Walked()[1] || v == Walked()[2];
  }

  /** The flat view of the tree. */
  method FlatView() returns (rows: seq<Row>)
    ensures rows == [Row("a", 3.0, 6.0, 3), Row("b", 4.0, 5.0, 7)]
  {
    hide Describes, FirstSeen, Visits, RowsTotal, TreeTotal;
    rows := AggregateFlat(Tree());
    TreeWalked();
    NamesSeen();
    RowsAre(rows[0]);
    RowsAre(rows[1]);
  }

  lemma CallerTotals()
    ensures Total(Exclusive, Walked(), Called("a", "b")) == 2.0 && Total(Calls, Walked(), Called("a", "b")) == 1.0
    ensures Total(Exclusive, Walked(), Called("b", "a")) == 4.0 && Total(Calls, Walked(), Called("b", "a")) == 7.0
  {
    ThreeVisits(Exclusive, Called("a", "b"));
    ThreeVisits(Calls, Called("a", "b"));
    ThreeVisits(Exclusive, Called("b", "a"));
    ThreeVisits(Calls, Called("b", "a"));
  }

  /** Each of the two names has the other for its one caller. */
  lemma CallersAre(c: string)
    ensures IsCaller(Walked(), "a", c) <==> c == "b"
    ensures IsCaller(Walked(), "b", c) <==> c == "a"
  {
    assert Picks(Called("a", "b"), Walked()[2]) && Picks(Called("b", "a"), Walked()[1]);
  }

  lemma TwoRowsDiffer(rows: seq<Row>)
    requires DistinctRows(rows) && |rows| > 1
    ensures rows[0].name != rows[1].name
  {
  }

  lemma OneCaller(name: string, caller: string, rows: seq<Row>, exclusive: real, calls: int)
    requires CallersOf(Walked(), name, rows) && forall c :: IsCaller(Walked(), name, c) <==> c == caller
    requires Total(Exclusive, Walked(), Called(name, caller)) == exclusive
    requires Total(Calls, Walked(), Called(name, caller)) == calls as real
    ensures rows == [Row(caller, exclusive, exclusive, calls)]
  {
    hide Total, IsCaller, Picks;
    assert IsCaller(Walked(), name, caller);
    var k :| 0 <= k < |rows| && rows[k].name == caller;
    assert forall j | 0 <= j < |rows| :: rows[j] in rows && rows[j].name == caller;
    if |rows| > 1 {
      TwoRowsDiffer(rows);
      assert false;
    }
    assert RowWeight(Exclusive, rows[0]) == exclusive && RowWeight(Calls, rows[0]) == calls as real;
  }

  lemma AccountedParts(vs: seq<Visit>, e: Callee)
    requires Accounted(vs, e)
    ensures DescribesCallee(vs, e.row, e.row.name) && CallersOf(vs, e.row.name, e.callers)
  {
  }

  /** The inverted view of the tree. */
  method InvertedView() returns (view: seq<Callee>)
    ensures view == [Callee(Row("a", 3.0, 6.0, 3), [Row("b", 2.0, 2.0, 1)]),
                     Callee(Row("b", 4.0, 5.0, 7), [Row("a", 4.0, 4.0, 7)])]
  {
    hide Accounted, DescribesCallee, CallersOf, FirstSeen, Visits, RowsTotal, TreeTotal, IsCaller, Total;
    view := BuildBottomUp(Tree());
    TreeWalked();
    NamesSeen();
    AccountedParts(Walked(), view[0]);
    AccountedParts(Walked(), view[1]);
    RowsAre(view[0].row);
    RowsAre(view[1].row);
    forall c
      ensures IsCaller(Walked(), "a", c) <==> c == "b"
      ensures IsCaller(Walked(), "b", c) <==> c == "a"
    {
      CallersAre(c);
    }
    CallerTotals();
    OneCaller("a", "b", view[0].callers, 2.0, 1);
    OneCaller("b", "a", view[1].callers, 4.0, 7);
  }
}
