/** Quotes that may span lines: exactly when cleaning a text leaves its strings and comments as they are. */
module CmakeStrings {
  import opened Text
  import opened CmakeCleanup
  import opened CmakeProtection
  import opened CmakeScanner

  // ---- the lines of a text ------------------------------------------------------------------------

  /** The state in which line k starts. */
  function Start(lines: seq<string>, k: nat): State
    requires k <= |lines|
  {
    Run(Code, Unlines(lines[..k]))
  }

  /** A blank line inside a string is empty and follows a line with content; a line with content is intact. */
  predicate Intact(lines: seq<string>, k: nat, indent: int, c: Classes)
    requires k < |lines|
  {
    if Blank(lines[k]) then Start(lines, k) == Quoted ==> lines[k] == "" && (k == 0 || !Blank(lines[k - 1]))
    else LineIntact(lines[k], Start(lines, k), Spaces(Depth(After(lines[..k], c), lines[k], c), indent))
  }

  predicate AllIntact(lines: seq<string>, indent: int, c: Classes) {
    forall k | 0 <= k < |lines| :: Intact(lines, k, indent, c)
  }

  lemma IntactPrefix(init: seq<string>, line: string, k: nat, indent: int, c: Classes)
    requires k < |init|
    ensures Intact(init + [line], k, indent, c) == Intact(init, k, indent, c)
  {
    hide Blank, LineIntact, After, Depth, Run, Unlines;
    assert (init + [line])[..k] == init[..k];
  }

  lemma AllIntactSnoc(init: seq<string>, line: string, indent: int, c: Classes)
    ensures AllIntact(init + [line], indent, c) <==>
              AllIntact(init, indent, c) && Intact(init + [line], |init|, indent, c)
  {
    hide Intact;
    forall k | 0 <= k < |init|
      ensures Intact(init + [line], k, indent, c) == Intact(init, k, indent, c)
    {
      IntactPrefix(init, line, k, indent, c);
    }
  }

  /** One more line, read from where the others leave off. */
  lemma ReadSnoc(lines: seq<string>, line: string)
    ensures var st := Run(Code, Unlines(lines));
            && Run(Code, Unlines(lines + [line])) == Run(st, line + "\n")
            && Marked(Code, Unlines(lines + [line])) == Marked(Code, Unlines(lines)) + Marked(st, line + "\n")
  {
    hide Run, Marked, Unlines;
    UnlinesSnoc(lines, line);
    assert Unlines(lines) + line + "\n" == Unlines(lines) + (line + "\n");
    RunConcat(Code, Unlines(lines), line + "\n");
  }

  lemma {:induction false} NoCommentAtStart(lines: seq<string>)
    ensures Run(Code, Unlines(lines)) != Comment
  {
    hide Unlines, Run;
    if |lines| > 0 {
      var init, last := lines[..|lines| - 1], lines[|lines| - 1];
      assert lines == init + [last];
      ReadSnoc(init, last);
      RunSnoc(Run(Code, Unlines(init)), last, '\n');
    } else {
      NoLines();
      NothingRuns(Code);
    }
  }

  lemma {:induction false} UnlinesEnd(lines: seq<string>)
    ensures Ended(Marked(Code, Unlines(lines)))
  {
    hide Unlines, Run, Marked;
    if |lines| > 0 {
      var init, last := lines[..|lines| - 1], lines[|lines| - 1];
      assert lines == init + [last];
      UnlinesSnoc(init, last);
      LinesAreEnded(Code, Unlines(init) + last);
    } else {
      NoLines();
      NothingRuns(Code);
    }
  }

  /** A line with content and its output line leave the same state and mark as many separators. */
  lemma ContentKeepsState(line: string, st: State, o: Open, indent: int, c: Classes)
    requires '\n' !in line
    ensures var w := Cleaned(line, o, indent, c);
            Run(st, w + "\n") == Run(st, line + "\n") &&
            Separators(Marked(st, w + "\n")) == Separators(Marked(st, line + "\n"))
  {
    hide Run, Marked, Separators, Cleaned, Visible;
    var w := Cleaned(line, o, indent, c);
    CleanedHasNoNewline(line, o, indent, c);
    VisibleOfCleaned(line, o, indent, c);
    LineState(w, st);
    LineState(line, st);
  }

  /** A line's visible characters decide what state it leaves and how many separators it marks. */
  lemma LineState(line: string, st: State)
    requires '\n' !in line
    ensures Run(st, line + "\n") == Next(Run(st, Visible(line)), '\n')
    ensures Separators(Marked(st, line + "\n"))
         == Separators(Marked(st, Visible(line))) + if Run(st, Visible(line)) == Code then 0 else 1
  {
    hide Run, Marked, Visible, Separators;
    RunVisible(st, line);
    MarkedSubset(st, line);
    SeparatorsVisible(Marked(st, line));
    RunSnoc(st, line, '\n');
    SeparatorsSnoc(Marked(st, line), '\n');
    assert Marked(st, line) + "" == Marked(st, line);
  }

  lemma {:induction false} MarkedSubset(st: State, s: string)
    requires '\n' !in s
    ensures '\n' !in Marked(st, s)
  {
    if s != "" {
      MarkedSubset(st, s[..|s| - 1]);
    }
  }

  lemma BlankKeepsState(line: string, st: State)
    requires Blank(line) && '\n' !in line && st != Comment
    ensures Run(st, line + "\n") == st && Marked(st, line + "\n") == if st == Code then "" else line + "\n"
    ensures Run(st, "" + "\n") == st && Marked(st, "" + "\n") == if st == Code then "" else "\n"
  {
    hide Run, Marked, Strip, Lead, Tail, Gap;
    LineParts(line);
    EmptyIsGap();
    NothingTrails(line);
    NothingRuns(st);
    MarkedParts(Lead(line), "", "", st);
    MarkedParts("", "", "", st);
    assert Lead(line) + "" + "" == line && "" + "" + "" == "";
    assert "" + "\n" == "\n" && "" + "" == "" && line + "\n" == line + ("" + "\n");
    assert line + "" == line;
    RunSnoc(st, line, '\n');
    RunSnoc(st, "", '\n');
  }

  /** Cleaning keeps the state at every line, marks no more separators, and marks the same text exactly when every line
      is intact. */
  lemma {:induction false} LinesMark(lines: seq<string>, indent: int, c: Classes)
    requires forall k | 0 <= k < |lines| :: '\n' !in lines[k]
    ensures var once := CleanLines(lines, indent, c);
            && Run(Code, Unlines(once)) == Run(Code, Unlines(lines))
            && Separators(Marked(Code, Unlines(once))) <= Separators(Marked(Code, Unlines(lines)))
            && (Marked(Code, Unlines(once)) == Marked(Code, Unlines(lines)) <==> AllIntact(lines, indent, c))
  {
    hide Run, Marked, Unlines, CleanLines, AllIntact, Intact, Separators, Blank, Cleaned, After, Depth;
    if |lines| == 0 {
      NothingMarked(lines, indent, c);
    } else {
      var n := |lines| - 1;
      var init, line := lines[..n], lines[n];
      assert lines == init + [line];
      LinesMark(init, indent, c);
      AllIntactSnoc(init, line, indent, c);
      ReadSnoc(init, line);
      if Blank(line) {
        BlankMarks(init, line, indent, c);
      } else {
        ContentMarks(init, line, indent, c);
      }
    }
  }

  lemma NothingMarked(lines: seq<string>, indent: int, c: Classes)
    requires |lines| == 0
    ensures CleanLines(lines, indent, c) == lines && AllIntact(lines, indent, c)
  {
  }

  /** What is known of the lines before the last. */
  ghost predicate MarkedSoFar(init: seq<string>, indent: int, c: Classes) {
    var once := CleanLines(init, indent, c);
    && Run(Code, Unlines(once)) == Run(Code, Unlines(init))
    && Separators(Marked(Code, Unlines(once))) <= Separators(Marked(Code, Unlines(init)))
    && (Marked(Code, Unlines(once)) == Marked(Code, Unlines(init)) <==> AllIntact(init, indent, c))
  }

  lemma ContentMarks(init: seq<string>, line: string, indent: int, c: Classes)
    requires MarkedSoFar(init, indent, c) && !Blank(line) && '\n' !in line
    ensures var once, st := CleanLines(init + [line], indent, c), Run(Code, Unlines(init));
            && Run(Code, Unlines(once)) == Run(st, line + "\n")
            && Separators(Marked(Code, Unlines(once))) <= Separators(Marked(Code, Unlines(init))
                                                                       + Marked(st, line + "\n"))
            && (Marked(Code, Unlines(once)) == Marked(Code, Unlines(init)) + Marked(st, line + "\n") <==>
                  AllIntact(init, indent, c) && Intact(init + [line], |init|, indent, c))
  {
    hide Run, Marked, Unlines, CleanLines, AllIntact, Separators, Blank, Cleaned, After, Depth, LineIntact, Ended;
    var before, st := CleanLines(init, indent, c), Run(Code, Unlines(init));
    var w := Cleaned(line, After(init, c), indent, c);
    OutputSnocLine(init, line, indent, c);
    ReadSnoc(before, w);
    ContentKeepsState(line, st, After(init, c), indent, c);
    NoCommentAtStart(init);
    LineMarks(line, st, After(init, c), indent, c);
    assert (init + [line])[..|init|] == init;
    var a, b := Marked(Code, Unlines(before)), Marked(st, w + "\n");
    var x, y := Marked(Code, Unlines(init)), Marked(st, line + "\n");
    SeparatorsConcat(a, b);
    SeparatorsConcat(x, y);
    if a + b == x + y {
      UnlinesEnd(before);
      UnlinesEnd(init);
      CutInOneWay(a, b, x, y);
    }
  }

  lemma OutputSnocLine(init: seq<string>, line: string, indent: int, c: Classes)
    ensures CleanLines(init + [line], indent, c) == CleanLines(init, indent, c)
              + if !Blank(line) then [Cleaned(line, After(init, c), indent, c)]
                else if |init| == 0 || !Blank(init[|init| - 1]) then [""]
                else []
  {
    assert (init + [line])[..|init|] == init;
  }

  lemma BlankMarks(init: seq<string>, line: string, indent: int, c: Classes)
    requires MarkedSoFar(init, indent, c) && Blank(line) && '\n' !in line
    ensures var once, st := CleanLines(init + [line], indent, c), Run(Code, Unlines(init));
            && Run(Code, Unlines(once)) == Run(st, line + "\n")
            && Separators(Marked(Code, Unlines(once))) <= Separators(Marked(Code, Unlines(init))
                                                                       + Marked(st, line + "\n"))
            && (Marked(Code, Unlines(once)) == Marked(Code, Unlines(init)) + Marked(st, line + "\n") <==>
                  AllIntact(init, indent, c) && Intact(init + [line], |init|, indent, c))
  {
    hide Run, Marked, Unlines, CleanLines, AllIntact, Separators, Blank, Cleaned, After, Depth, LineIntact, Ended;
    var before, st := CleanLines(init, indent, c), Run(Code, Unlines(init));
    OutputSnocLine(init, line, indent, c);
    NoCommentAtStart(init);
    BlankKeepsState(line, st);
    ReadSnoc(before, "");
    assert (init + [line])[..|init|] == init;
    var a, x := Marked(Code, Unlines(before)), Marked(Code, Unlines(init));
    var y := Marked(st, line + "\n");
    assert a + "" == a && x + "" == x && before + [] == before;
    SeparatorsConcat(x, y);
    SeparatorsSnoc(a, '\n');
    SeparatorsSnoc(line, '\n');
    UnlinesEnd(before);
    UnlinesEnd(init);
    var kept := |init| == 0 || !Blank(init[|init| - 1]);
    if st == Quoted {
      if kept {
        SpaceHasNoSeparators(line);
        if a + "\n" == x + y {
          SeparatorsConcat(a, "\n");
          CutInOneWay(a, "\n", x, y);
          assert |"\n"| == |line + "\n"|;
        }
      } else {
        assert a != x + y;
      }
    }
  }

  lemma SpaceHasNoSeparators(line: string)
    requires Blank(line) && '\n' !in line
    ensures Separators(line) == 0
  {
    hide Separators;
    BlankIffInvisible(line);
    SeparatorsVisible(line);
    assert Separators("") == 0 by {
      NoSeparators();
    }
  }

  lemma NoSeparators()
    ensures Separators("") == 0
  {
  }

  // ---- the theorem --------------------------------------------------------------------------------

  /** Cleaning a text, read with its last line ended like the others, neither loses nor inserts a character inside
      strings and comments exactly when every line is intact. */
  lemma CleanupKeepsStrings(text: string, indent: int, c: Classes)
    ensures Marked(Code, Cleanup(text, indent, c)) == Marked(Code, text + "\n") <==> AllIntact(Split(text), indent, c)
  {
    hide Marked, Lines, Rest, Unlines, CleanLines, AllIntact;
    SplitLines(text);
    LinesMark(Split(text), indent, c);
    LinesAndRest(text);
    UnlinesSnoc(Lines(text), Rest(text));
  }

  /** A text that ends outside strings and comments marks the same with and without a last newline. */
  lemma LastNewline(text: string)
    ensures Marked(Code, text + "\n") == Marked(Code, text) + if Run(Code, text) == Code then "" else "\n"
  {
    RunSnoc(Code, text, '\n');
  }

  /** On a text that ends outside strings and comments, read as it is. */
  lemma CleanupKeepsClosedStrings(text: string, indent: int, c: Classes)
    requires Run(Code, text) == Code
    ensures Marked(Code, Cleanup(text, indent, c)) == Marked(Code, text) <==> AllIntact(Split(text), indent, c)
  {
    hide Run, Marked, Cleanup, Split, AllIntact;
    CleanupKeepsStrings(text, indent, c);
    LastNewline(text);
    assert Marked(Code, text) + "" == Marked(Code, text);
  }

  // ---- texts that end inside a string or comment ----------------------------------------------------

  lemma {:induction false} VisibleMarks(lines: seq<string>, indent: int, c: Classes)
    requires forall k | 0 <= k < |lines| :: '\n' !in lines[k]
    ensures Visible(Marked(Code, Unlines(CleanLines(lines, indent, c)))) == Visible(Marked(Code, Unlines(lines)))
  {
    hide Run, Marked, Unlines, CleanLines, Visible, Blank, Cleaned, After, AllIntact, Separators;
    if |lines| == 0 {
      NothingMarked(lines, indent, c);
    } else {
      var n := |lines| - 1;
      var init, line := lines[..n], lines[n];
      assert lines == init + [line];
      VisibleMarks(init, indent, c);
      LinesMark(init, indent, c);
      NoCommentAtStart(init);
      var before, st := CleanLines(init, indent, c), Run(Code, Unlines(init));
      OutputSnocLine(init, line, indent, c);
      ReadSnoc(init, line);
      VisibleConcat(Marked(Code, Unlines(init)), Marked(st, line + "\n"));
      VisibleLine(line, st);
      if Blank(line) {
        BlankIffInvisible(line);
        NothingRuns(st);
        VisibleLine("", st);
        ReadSnoc(before, "");
        VisibleConcat(Marked(Code, Unlines(before)), Marked(st, "" + "\n"));
        assert before + [] == before;
        assert Visible(Marked(Code, Unlines(init))) + "" == Visible(Marked(Code, Unlines(init)));
      } else {
        var w := Cleaned(line, After(init, c), indent, c);
        CleanedHasNoNewline(line, After(init, c), indent, c);
        VisibleOfCleaned(line, After(init, c), indent, c);
        VisibleLine(w, st);
        ReadSnoc(before, w);
        VisibleConcat(Marked(Code, Unlines(before)), Marked(st, w + "\n"));
      }
    }
  }

  lemma VisibleLine(line: string, st: State)
    requires '\n' !in line
    ensures Visible(Marked(st, line + "\n")) == Marked(st, Visible(line))
    ensures Marked(st, line + "\n") == Marked(st, line) + if Run(st, line) == Code then "" else "\n"
  {
    hide Run, Marked, Visible;
    RunVisible(st, line);
    RunSnoc(st, line, '\n');
    VisibleOne(Marked(st, line), '\n');
    assert Marked(st, line) + "" == Marked(st, line) && Visible(Marked(st, line)) + "" == Visible(Marked(st, line));
  }

  /** A text that goes on with one separator more, and nothing visible, goes on with a newline. */
  lemma OneSeparatorMore(x: string, y: string, a: string, b: string) returns (u: string)
    requires x + y == a + b && Ended(x) && Ended(a) && Separators(x) == Separators(a) + 1 && Visible(x) == Visible(a)
    ensures '\n' !in u && x == a + u + "\n" && b == u + "\n" + y
  {
    hide Visible, Separators;
    if |x| <= |a| {
      NoMoreSeparators(x, y, a, b);
    }
    var z := x[|a|..];
    assert a == (a + b)[..|a|] == (x + y)[..|a|] == x[..|a|] && x == a + z;
    u := z[..|z| - 1];
    var ch := z[|z| - 1];
    assert z == u + [ch] && ch == x[|x| - 1] && Separator(ch);
    SeparatorsConcat(a, z);
    SeparatorsSnoc(u, ch);
    NoSeparatorNoNewline(u);
    VisibleConcat(a, z);
    assert |Visible(a) + Visible(z)| == |Visible(a)|;
    VisibleOne(u, ch);
    QuoteShows(ch);
    assert x == a + u + "\n";
    assert b == (a + b)[|a|..] && (a + u + "\n" + y)[|a|..] == u + "\n" + y;
  }

  lemma NoMoreSeparators(x: string, y: string, a: string, b: string)
    requires x + y == a + b && |x| <= |a|
    ensures Separators(x) <= Separators(a)
  {
    hide Separators;
    assert x == (x + y)[..|x|] == (a + b)[..|x|] == a[..|x|];
    assert a == x + a[|x|..];
    SeparatorsConcat(x, a[|x|..]);
  }

  lemma QuoteShows(ch: char)
    ensures Separator(ch) && IsSpace(ch) ==> ch == '\n'
  {
  }

  lemma {:induction false} NoSeparatorNoNewline(s: string)
    requires Separators(s) == 0
    ensures '\n' !in s
  {
    if s != "" {
      NoSeparatorNoNewline(s[..|s| - 1]);
      assert s == s[..|s| - 1] + [s[|s| - 1]];
    }
  }

  /** A line's contribution with a newline more in front than in the other cannot say anything. */
  lemma NewlineMoved(b0: string, y0: string, last: string, u: string)
    requires '\n' !in b0 && '\n' !in y0 && '\n' !in u && (last == "" || last == "\n")
    requires b0 + last + "\n" == u + "\n" + (y0 + last)
    ensures y0 == "" && b0 == u
  {
    var s := b0 + last + "\n";
    assert s[|b0|] == '\n' && s[|u|] == '\n';
    assert forall k | 0 <= k < |b0| :: s[k] == b0[k];
    assert forall k | 0 <= k < |u| :: s[k] == u[k];
    assert |b0| == |u|;
    assert b0 == s[..|b0|] && u == s[..|u|];
    assert |y0| == 0;
  }

  lemma CodeMarksNoMore(line: string, o: Open, indent: int, c: Classes)
    requires '\n' !in line
    ensures |Marked(Code, Cleaned(line, o, indent, c))| <= |Marked(Code, line)|
  {
    hide Run, Marked, Strip, Squeezed, Lead, Tail, Depth;
    LineParts(line);
    var spaces := Spaces(Depth(o, line, c), indent);
    IndentIsGap(spaces);
    SqueezeMarks(Strip(line), Code);
    RunConcat(Code, spaces, Squeezed(Strip(line)));
    RunGap(Code, spaces);
    RunConcat(Code, Lead(line) + Strip(line), Tail(line));
    RunConcat(Code, Lead(line), Strip(line));
    RunGap(Code, Lead(line));
  }

  lemma QuotedContentMarks(line: string)
    requires !Blank(line) && '\n' !in line
    ensures Marked(Quoted, line) != ""
  {
    hide Run, Marked, Strip, Lead, Tail, IsSpace;
    LineParts(line);
    StripStart(line);
    assert line != "" by {
      assert line == Lead(line) + Strip(line) + Tail(line);
    }
    QuotedStart(line);
  }

  /** The last line of a list is a blank line inside a string that is dropped, and all before it are intact. */
  predicate DroppedLast(lines: seq<string>, indent: int, c: Classes) {
    && |lines| > 1 && lines[|lines| - 1] == "" && Blank(lines[|lines| - 2]) && Start(lines, |lines| - 1) == Quoted
    && AllIntact(lines[..|lines| - 1], indent, c)
  }

  /** Cleaning loses one newline off the end of what lines mark, and nothing else, just when it drops such a line. */
  lemma {:induction false} OneNewlineLess(lines: seq<string>, indent: int, c: Classes)
    requires forall k | 0 <= k < |lines| :: '\n' !in lines[k]
    ensures Marked(Code, Unlines(lines)) == Marked(Code, Unlines(CleanLines(lines, indent, c))) + "\n"
       <==> DroppedLast(lines, indent, c)
    ensures DroppedLast(lines, indent, c) ==> Run(Code, Unlines(lines)) == Quoted
  {
    hide Run, Marked, Unlines, CleanLines, AllIntact, Separators, Visible, Blank, Cleaned, After, Intact, Ended,
         DroppedLast;
    if |lines| == 0 {
      NothingMarked(lines, indent, c);
      NothingDropped0(lines, indent, c);
      NoLines();
      NothingRuns(Code);
    } else {
      var n := |lines| - 1;
      var init, line := lines[..n], lines[n];
      assert lines == init + [line];
      OneNewlineLess(init, indent, c);
      if Blank(line) && n > 0 && Blank(init[n - 1]) {
        DroppedLine(init, line, indent, c);
      } else {
        DroppedLastIsBlank(init, indent, c);
        KeptLine(init, line, indent, c);
        NotDroppedLast(init, line, indent, c);
      }
    }
  }

  lemma NothingDropped0(lines: seq<string>, indent: int, c: Classes)
    requires |lines| == 0
    ensures !DroppedLast(lines, indent, c)
  {
  }

  lemma DroppedLastIsBlank(lines: seq<string>, indent: int, c: Classes)
    ensures DroppedLast(lines, indent, c) ==> |lines| > 0 && Blank(lines[|lines| - 1])
  {
    hide AllIntact, Start;
    EmptyIsBlank();
  }

  lemma NotDroppedLast(init: seq<string>, line: string, indent: int, c: Classes)
    requires !(Blank(line) && |init| > 0 && Blank(init[|init| - 1]))
    ensures !DroppedLast(init + [line], indent, c)
  {
    hide AllIntact, Start;
    EmptyIsBlank();
  }

  lemma DroppedLine(init: seq<string>, line: string, indent: int, c: Classes)
    requires forall k | 0 <= k < |init| :: '\n' !in init[k]
    requires '\n' !in line && |init| > 0 && Blank(line) && Blank(init[|init| - 1])
    requires Marked(Code, Unlines(init)) == Marked(Code, Unlines(CleanLines(init, indent, c))) + "\n"
        ==> Run(Code, Unlines(init)) == Quoted
    ensures var lines := init + [line];
            && (Marked(Code, Unlines(lines)) == Marked(Code, Unlines(CleanLines(lines, indent, c))) + "\n"
                <==> DroppedLast(lines, indent, c))
            && (DroppedLast(lines, indent, c) ==> Run(Code, Unlines(lines)) == Quoted)
  {
    hide Run, Marked, Unlines, CleanLines, AllIntact, Separators, Blank, Cleaned, After, Intact, Ended;
    var lines := init + [line];
    var before, st := CleanLines(init, indent, c), Run(Code, Unlines(init));
    OutputSnocLine(init, line, indent, c);
    assert before + [] == before && lines[..|init|] == init && lines[|lines| - 2] == init[|init| - 1];
    ReadSnoc(init, line);
    NoCommentAtStart(init);
    BlankKeepsState(line, st);
    LinesMark(init, indent, c);
    var x, a := Marked(Code, Unlines(init)), Marked(Code, Unlines(before));
    if st == Code {
      assert x + "" == x;
    } else {
      SpaceHasNoSeparators(line);
      SeparatorsConcat(x, line);
      UnlinesEnd(init);
      UnlinesEnd(before);
      SameFront(x + line, a, "\n");
      assert x + (line + "\n") == x + line + "\n";
      if x + line == a {
        assert a + "" == a;
        NoMoreSeparators(x, line, a, "");
        CutInOneWay(x, line, a, "");
      }
      assert x + "" == x;
    }
  }

  lemma KeptLine(init: seq<string>, line: string, indent: int, c: Classes)
    requires forall k | 0 <= k < |init| :: '\n' !in init[k]
    requires '\n' !in line && !(Blank(line) && |init| > 0 && Blank(init[|init| - 1]))
    requires Marked(Code, Unlines(init)) == Marked(Code, Unlines(CleanLines(init, indent, c))) + "\n"
        ==> |init| > 0 && Blank(init[|init| - 1]) && Run(Code, Unlines(init)) == Quoted
    ensures var lines := init + [line];
            Marked(Code, Unlines(lines)) != Marked(Code, Unlines(CleanLines(lines, indent, c))) + "\n"
  {
    hide Run, Marked, Unlines, CleanLines, AllIntact, Separators, Visible, Blank, Cleaned, After, Intact, Ended;
    var before, st := CleanLines(init, indent, c), Run(Code, Unlines(init));
    var w := if Blank(line) then "" else Cleaned(line, After(init, c), indent, c);
    OutputSnocLine(init, line, indent, c);
    ReadSnoc(init, line);
    ReadSnoc(before, w);
    LinesMark(init, indent, c);
    VisibleMarks(init, indent, c);
    NoCommentAtStart(init);
    UnlinesEnd(init);
    UnlinesEnd(before);
    var x, a := Marked(Code, Unlines(init)), Marked(Code, Unlines(before));
    var y, b := Marked(st, line + "\n"), Marked(st, w + "\n");
    SameLine(line, st, After(init, c), indent, c);
    SeparatorsConcat(x, y);
    SeparatorsConcat(a, b);
    SeparatorsSnoc(a + b, '\n');
    assert a + b + "\n" == a + (b + "\n") && a + "" + "\n" == a + "\n";
    if x + y == a + b + "\n" {
      var u := OneSeparatorMore(x, y, a, b + "\n");
      var last := if Run(st, line) == Code then "" else "\n";
      assert b + "\n" == Marked(st, w) + last + "\n";
      NewlineMoved(Marked(st, w), Marked(st, line), last, u);
    }
  }

  /** A line that is kept: what it and its output line mark, apart from the newline, and when it marks nothing. */
  lemma SameLine(line: string, st: State, o: Open, indent: int, c: Classes)
    requires '\n' !in line && st != Comment
    ensures var w := if Blank(line) then "" else Cleaned(line, o, indent, c);
            && Run(st, w) == Run(st, line) && '\n' !in Marked(st, w) && '\n' !in Marked(st, line)
            && Marked(st, w + "\n") == Marked(st, w) + (if Run(st, line) == Code then "" else "\n")
            && Marked(st, line + "\n") == Marked(st, line) + (if Run(st, line) == Code then "" else "\n")
            && Separators(Marked(st, w + "\n")) == Separators(Marked(st, line + "\n"))
            && (Marked(st, line) == "" ==> Marked(st, w) == "" && (Blank(line) || st == Code))
  {
    hide Run, Marked, Visible, Blank, Cleaned, Separators;
    var w := if Blank(line) then "" else Cleaned(line, o, indent, c);
    VisibleLine(line, st);
    RunVisible(st, line);
    MarkedSubset(st, line);
    if Blank(line) {
      BlankIffInvisible(line);
      NothingRuns(st);
      VisibleLine("", st);
      LineState(line, st);
      LineState("", st);
    } else {
      CleanedHasNoNewline(line, o, indent, c);
      VisibleOfCleaned(line, o, indent, c);
      VisibleLine(w, st);
      RunVisible(st, w);
      MarkedSubset(st, w);
      ContentKeepsState(line, st, o, indent, c);
      if st == Code {
        CodeMarksNoMore(line, o, indent, c);
      } else {
        QuotedContentMarks(line);
      }
    }
  }

  /** A text that ends inside a string or comment gains a newline there, and marks the same all the same exactly when it
      ends with a blank line inside a string that cleaning drops, and every line before is intact. */
  lemma CleanupKeepsOpenStrings(text: string, indent: int, c: Classes)
    requires Run(Code, text) != Code
    ensures Marked(Code, Cleanup(text, indent, c)) == Marked(Code, text) <==> DroppedLast(Split(text), indent, c)
  {
    hide Run, Marked, Unlines, CleanLines, Lines, Rest, DroppedLast;
    SplitLines(text);
    OneNewlineLess(Split(text), indent, c);
    LinesAndRest(text);
    UnlinesSnoc(Lines(text), Rest(text));
    LastNewline(text);
    SameFront(Marked(Code, text), Marked(Code, Cleanup(text, indent, c)), "\n");
  }

  // ---- texts whose lines all close their quotes ------------------------------------------------------

  /** A line leaves no string open. */
  predicate Closed(line: string) { Run(Code, line) != Quoted }

  /** No comment sign stands inside a string. */
  predicate NoSignQuoted(line: string) {
    forall k | 0 <= k < |line| :: line[k] == '#' ==> Run(Code, line[..k]) != Quoted
  }

  /** Within one line the unguarded positions are code. */
  lemma {:induction false} UnguardedIsCode(s: string)
    requires '\n' !in s && '#' !in s
    ensures Run(Code, s) == if Quotes(s) % 2 == 1 then Quoted else Code
  {
    if s != "" {
      var init := s[..|s| - 1];
      assert s == init + [s[|s| - 1]];
      UnguardedIsCode(init);
    }
  }

  lemma CodeLosesNothing(t: string)
    requires '\n' !in t
    ensures NothingLost(t, |t|, Code)
  {
    hide Quotes, Run;
    forall k | 0 <= k < |t| && Dropped(t, k)
      ensures Run(Code, t[..k]) == Code
    {
      assert !Guarded(t, k);
      UnguardedIsCode(t[..k]);
    }
  }

  lemma {:induction false} SignsComment(s: string)
    requires '\n' !in s && NoSignQuoted(s) && '#' in s
    ensures Run(Code, s) == Comment
  {
    hide Quotes, Run, NoSignQuoted;
    var init, ch := s[..|s| - 1], s[|s| - 1];
    assert s == init + [ch];
    RunSnoc(Code, init, ch);
    if '#' in init {
      NoSignPrefix(s);
      SignsComment(init);
    } else {
      LastSign(s);
      UnguardedIsCode(init);
    }
  }

  lemma NoSignPrefix(s: string)
    requires s != "" && NoSignQuoted(s)
    ensures NoSignQuoted(s[..|s| - 1])
  {
    hide Run;
    var init := s[..|s| - 1];
    forall k | 0 <= k < |init| && init[k] == '#'
      ensures Run(Code, init[..k]) != Quoted
    {
      assert s[k] == init[k] && s[..k] == init[..k];
    }
  }

  lemma LastSign(s: string)
    requires s != "" && NoSignQuoted(s) && '#' in s && '#' !in s[..|s| - 1]
    ensures s[|s| - 1] == '#' && Run(Code, s[..|s| - 1]) != Quoted
  {
    hide Run;
    assert s == s[..|s| - 1] + [s[|s| - 1]];
  }

  /** A line that closes its quotes and has no comment sign in them is intact just when nothing guarded trails on it. */
  lemma ClosedLine(line: string, spaces: string)
    requires '\n' !in line && Closed(line)
    ensures LineIntact(line, Code, spaces) <==> (Run(Code, line) == Comment ==> Tail(line) == "")
    ensures Trim(line) ==> LineIntact(line, Code, spaces)
    ensures NoSignQuoted(line) ==> (LineIntact(line, Code, spaces) <==> Trim(line))
  {
    hide Run, Quotes, Lead, Tail, Strip, NothingLost, NoSignQuoted;
    LineParts(line);
    CodeLosesNothing(Strip(line));
    assert line[..|line|] == line;
    if '#' in line {
      if NoSignQuoted(line) {
        SignsComment(line);
      }
    } else {
      UnguardedIsCode(line);
    }
  }

  lemma {:induction false} ClosedLinesStartInCode(lines: seq<string>)
    requires forall k | 0 <= k < |lines| :: Closed(lines[k])
    ensures Run(Code, Unlines(lines)) == Code
  {
    hide Run, Unlines;
    if |lines| > 0 {
      var init, last := lines[..|lines| - 1], lines[|lines| - 1];
      assert lines == init + [last];
      ClosedLinesStartInCode(init);
      ReadSnoc(init, last);
      RunSnoc(Code, last, '\n');
    } else {
      NoLines();
      NothingRuns(Code);
    }
  }

  /** When every line closes its quotes, lines that keep what they guard suffice; without comment signs inside strings
      they are needed too. */
  lemma ClosedLinesIntact(lines: seq<string>, indent: int, c: Classes)
    requires forall k | 0 <= k < |lines| :: '\n' !in lines[k] && Closed(lines[k])
    ensures AllTrim(lines) ==> AllIntact(lines, indent, c)
    ensures (forall k | 0 <= k < |lines| :: NoSignQuoted(lines[k])) ==>
              (AllIntact(lines, indent, c) <==> AllTrim(lines))
  {
    hide Closed, LineIntact, Trim, Blank, After, Depth, Unlines, Run, NoSignQuoted;
    forall k | 0 <= k < |lines|
      ensures Trim(lines[k]) ==> Intact(lines, k, indent, c)
      ensures NoSignQuoted(lines[k]) ==> (Intact(lines, k, indent, c) <==> Trim(lines[k]))
    {
      ClosedLinesStartInCode(lines[..k]);
      if Blank(lines[k]) {
        BlankHasNothingProtected(lines[k]);
      } else {
        ClosedLine(lines[k], Spaces(Depth(After(lines[..k], c), lines[k], c), indent));
      }
    }
  }

  // ---- a string over two lines -------------------------------------------------------------------------

  function Spanning(): seq<string> { ["\"a", "b  c\""] }

  lemma SpanningStarts()
    ensures Start(Spanning(), 0) == Code && Start(Spanning(), 1) == Quoted
  {
    hide Run, Unlines;
    NoLines();
    NothingRuns(Code);
    var first := Spanning()[0];
    assert Spanning()[..0] == [] && Spanning()[..1] == [] + [first];
    ReadSnoc([], first);
    assert first + "\n" == "" + [first[0]] + [first[1]] + ['\n'];
    RunSnoc(Code, "", first[0]);
    RunSnoc(Code, "" + [first[0]], first[1]);
    RunSnoc(Code, "" + [first[0]] + [first[1]], '\n');
  }

  lemma NothingTrailsOn(s: string)
    requires s != "" && !IsSpace(s[0]) && !IsSpace(s[|s| - 1])
    ensures Strip(s) == s && Trim(s)
  {
    hide StripLeft, StripRight, Guarded, IsSpace;
    StripVisible(s);
  }

  lemma SecondBlank(t: string)
    requires |t| > 2 && t[0] == 'b' && t[1] == t[2] == ' '
    ensures Dropped(t, 2) && Run(Quoted, t[..2]) == Quoted
  {
    hide Run;
    assert t[..2] == [t[0]] + [t[1]] && "" + [t[0]] == [t[0]];
    NothingRuns(Quoted);
    RunSnoc(Quoted, "", t[0]);
    RunSnoc(Quoted, [t[0]], t[1]);
    assert t[..2][..1] == [t[0]] && [t[0]][..0] == "";
    assert Quotes([t[0]]) == 0 && Quotes(t[..2]) == 0;
    assert '#' !in t[..2];
  }

  /** Line by line nothing guarded is lost, yet the string that spans both lines loses a blank. */
  lemma SpanningStringLosesBlank(indent: int, c: Classes)
    ensures AllTrim(Spanning())
    ensures Marked(Code, Unlines(CleanLines(Spanning(), indent, c))) != Marked(Code, Unlines(Spanning()))
  {
    hide Run, Marked, Unlines, CleanLines, Dropped, Strip, Trim, Separators, After, Depth, Lead, Tail;
    var t := Spanning()[1];
    NothingTrailsOn(Spanning()[0]);
    NothingTrailsOn(t);
    SpanningStarts();
    SecondBlank(t);
    SpanningHasNoNewline();
    LinesMark(Spanning(), indent, c);
    assert !NothingLost(t, |t|, Quoted);
    assert !Intact(Spanning(), 1, indent, c);
  }

  /** So it does in the text of these two lines. */
  lemma SpanningTextLosesBlank(indent: int, c: Classes)
    ensures var text := Spanning()[0] + "\n" + Spanning()[1];
            Split(text) == Spanning() && Marked(Code, Cleanup(text, indent, c)) != Marked(Code, text + "\n")
  {
    hide Run, Marked, Unlines, CleanLines, AllTrim, AllIntact, Lines, Rest;
    var text := Spanning()[0] + "\n" + Spanning()[1];
    SpanningHasNoNewline();
    OneLine(Spanning()[0], Spanning()[1]);
    NoNewlineIsRest(Spanning()[1]);
    assert Split(text) == Spanning();
    SpanningStringLosesBlank(indent, c);
    CleanupKeepsStrings(text, indent, c);
    LinesMark(Spanning(), indent, c);
  }

  lemma NoNewlineIsRest(s: string)
    requires '\n' !in s
    ensures Lines(s) == [] && Rest(s) == s
  {
    hide NewlineAt;
    NoLine(s);
  }

  lemma SpanningHasNoNewline()
    ensures forall k | 0 <= k < |Spanning()| :: '\n' !in Spanning()[k]
  {
  }
}
