/** Cleaning a text that was cleaned already: when it changes nothing, and how nested blocks lose their indent. */
module CmakeReclean {
  import opened Text
  import opened CmakeCleanup
  import opened CmakeIndent

  // ---- what the second cleaning reads on a line -----------------------------------------------------

  lemma SqueezedEnds(line: string)
    requires !Blank(line)
    ensures var r := Squeezed(Strip(line)); r != "" && !IsSpace(r[0]) && !IsSpace(r[|r| - 1])
  {
    hide Strip, Kept, IsSpace;
    var t := Strip(line);
    StripEnds(line);
    SqueezeStart(t);
    KeptGuards(t, |t|);
  }

  function Step(ch: char): int { if ch == '(' then 1 else if ch == ')' then -1 else 0 }

  lemma {:induction false} UnclosedSnoc(s: string, ch: char)
    ensures Unclosed(s + [ch]) == Unclosed(s) + if '#' in s then 0 else Step(ch)
  {
    if s == "" {
      assert [ch][1..] == "" && "" + [ch] == [ch];
    } else {
      UnclosedSnoc(s[1..], ch);
      assert (s + [ch])[1..] == s[1..] + [ch];
      assert '#' in s <==> s[0] == '#' || '#' in s[1..];
    }
  }

  lemma {:induction false} KeptUnclosed(s: string, n: nat)
    requires n <= |s|
    ensures Unclosed(Kept(s, n)) == Unclosed(s[..n])
  {
    hide Kept, Unclosed;
    if n > 0 {
      KeptUnclosed(s, n - 1);
      KeptGuards(s, n - 1);
      KeptStep(s, n);
      UnclosedSnoc(Kept(s, n - 1), s[n - 1]);
      UnclosedSnoc(s[..n - 1], s[n - 1]);
      assert s[..n] == s[..n - 1] + [s[n - 1]];
    } else {
      NothingKept(s);
    }
  }

  lemma {:induction false} KeptGrows(s: string, m: nat, n: nat)
    requires m <= n <= |s|
    ensures Kept(s, m) <= Kept(s, n)
  {
    if m < n {
      KeptGrows(s, m, n - 1);
    }
  }

  lemma {:induction false} IdentIs(s: string, n: nat, c: Classes)
    requires n <= |s| && (forall k | 0 <= k < n :: c.alpha(s[k])) && (n < |s| ==> !c.alpha(s[n]))
    ensures Ident(s, c) == s[..n]
  {
    if n > 0 {
      IdentIs(s[1..], n - 1, c);
      assert s[..n] == [s[0]] + s[1..][..n - 1];
    }
  }

  lemma {:induction false} IdentLength(s: string, c: Classes)
    ensures var n := |Ident(s, c)|; n <= |s| && (forall k | 0 <= k < n :: c.alpha(s[k])) && (n < |s| ==> !c.alpha(s[n]))
  {
    if s != "" && c.alpha(s[0]) {
      IdentLength(s[1..], c);
    }
  }

  lemma {:induction false} LettersKept(s: string, n: nat, c: Classes)
    requires LettersVisible(c) && n <= |s| && forall k | 0 <= k < n :: c.alpha(s[k])
    ensures Kept(s, n) == s[..n]
  {
    if n > 0 {
      LettersKept(s, n - 1, c);
    }
  }

  /** Squeezing changes neither the first word nor the open parentheses. */
  lemma SqueezedReads(s: string, c: Classes)
    requires LettersVisible(c)
    ensures Ident(Squeezed(s), c) == Ident(s, c) && Unclosed(Squeezed(s)) == Unclosed(s)
  {
    hide Ident, Kept, Unclosed, LettersVisible;
    IdentLength(s, c);
    var n := |Ident(s, c)|;
    LettersKept(s, n, c);
    KeptGrows(s, n, |s|);
    IdentIs(s, n, c);
    if n < |s| {
      NextKept(s, n, c);
      KeptGrows(s, n + 1, |s|);
      assert s[..n + 1][n] == s[n];
    }
    var r := Squeezed(s);
    assert r[..n] == s[..n];
    forall k | 0 <= k < n
      ensures r[k] == s[k]
    {
      assert r[k] == r[..n][k] && s[k] == s[..n][k];
    }
    IdentIs(r, n, c);
    KeptUnclosed(s, |s|);
    assert s[..|s|] == s;
  }

  lemma NextKept(s: string, n: nat, c: Classes)
    requires LettersVisible(c) && n < |s| && Kept(s, n) == s[..n] && forall k | 0 <= k < n :: c.alpha(s[k])
    ensures Kept(s, n + 1) == s[..n + 1]
  {
    hide Kept;
    KeptStep(s, n + 1);
    assert n > 0 ==> c.alpha(s[n - 1]);
  }

  /** The first word of an output line: none when the line is indented. */
  function Seen(line: string, o: Open, indent: int, c: Classes): string {
    if Depth(o, line, c) > 0 && indent > 0 then "" else Ident(Strip(line), c)
  }

  /** What the second cleaning reads on the output line of a line with content. */
  lemma Reread(line: string, o: Open, indent: int, c: Classes)
    requires !Blank(line) && LettersVisible(c)
    ensures var w := Cleaned(line, o, indent, c);
            !Blank(w) && Strip(w) == Squeezed(Strip(line))
            && Unclosed(Strip(w)) == Unclosed(Strip(line)) && Ident(w, c) == Seen(line, o, indent, c)
  {
    hide Strip, Squeezed, Ident, Unclosed, Depth, Blank, LettersVisible, IsSpace;
    var spaces, r := Spaces(Depth(o, line, c), indent), Squeezed(Strip(line));
    var w := Cleaned(line, o, indent, c);
    SqueezedEnds(line);
    SpaceIsSpace(spaces);
    StripLead(spaces, r);
    SqueezedReads(Strip(line), c);
    IndentShows(Depth(o, line, c), indent);
    IdentOfLine(w, c);
    assert w == spaces + r;
    assert spaces == "" ==> w == r;
  }

  lemma SpaceIsSpace(s: string)
    requires forall k | 0 <= k < |s| :: s[k] == ' '
    ensures forall k | 0 <= k < |s| :: IsSpace(s[k])
  {
  }

  lemma IndentShows(depth: int, indent: int)
    ensures Spaces(depth, indent) != "" <==> depth > 0 && indent > 0
  {
    if depth > 0 && indent > 0 {
      MulPositive(depth, indent);
    }
  }

  lemma MulPositive(a: nat, b: nat)
    requires a > 0 && b > 0
    ensures a * b > 0
  {
  }

  lemma {:induction false} MulInjective(a: int, b: int, n: int)
    requires n > 0 && a * n == b * n
    ensures a == b
  {
    assert (a - b) * n == 0;
    if a > b {
      MulPositive(a - b, n);
    } else if a < b {
      MulPositive(b - a, n);
    }
  }

  /** Two depths that indent the same. */
  predicate SameIndent(d: int, e: int, indent: int) { indent <= 0 || d == e || (d <= 0 && e <= 0) }

  lemma SpacesEqual(d: int, e: int, indent: int)
    ensures Spaces(d, indent) == Spaces(e, indent) <==> SameIndent(d, e, indent)
  {
    IndentShows(d, indent);
    IndentShows(e, indent);
    if d > 0 && e > 0 && indent > 0 && |Spaces(d, indent)| == |Spaces(e, indent)| {
      MulInjective(d, e, indent);
    }
  }

  /** Cleaning an output line again leaves it alone exactly when its indent is computed to be the same again. */
  lemma LineAgain(line: string, o: Open, o': Open, indent: int, c: Classes)
    requires !Blank(line) && LettersVisible(c)
    ensures Cleaned(Cleaned(line, o, indent, c), o', indent, c) == Cleaned(line, o, indent, c)
       <==> SameIndent(DepthOf(o', Seen(line, o, indent, c), c), Depth(o, line, c), indent)
  {
    hide Strip, Squeezed, Ident, DepthOf, Seen, Blank, LettersVisible;
    var w, r := Cleaned(line, o, indent, c), Squeezed(Strip(line));
    Reread(line, o, indent, c);
    SqueezeFixedPoint(Strip(line));
    var d, e := Depth(o', w, c), Depth(o, line, c);
    SpacesEqual(d, e, indent);
    SameFront(Spaces(d, indent), Spaces(e, indent), r);
  }

  // ---- the whole file -------------------------------------------------------------------------------

  /** What is open before each line in the second cleaning, told from the lines of the first. */
  function Again(lines: seq<string>, indent: int, c: Classes): Open {
    if |lines| == 0 then Open(0, 0, 0)
    else
      var n := |lines| - 1;
      var o' := Again(lines[..n], indent, c);
      if Blank(lines[n]) then o'
      else PastOf(o', Seen(lines[n], After(lines[..n], c), indent, c), Unclosed(Strip(lines[n])), c)
  }

  /** Line k gets the same indent from the words that the first cleaning leaves in the first column as from the words
      that stand there in the text. */
  predicate Steady(lines: seq<string>, k: nat, indent: int, c: Classes)
    requires k < |lines|
  {
    Blank(lines[k])
    || SameIndent(DepthOf(Again(lines[..k], indent, c), Seen(lines[k], After(lines[..k], c), indent, c), c),
                  Depth(After(lines[..k], c), lines[k], c), indent)
  }

  lemma AfterSnoc(lines: seq<string>, line: string, c: Classes)
    ensures After(lines + [line], c) == if Blank(line) then After(lines, c) else Past(After(lines, c), line, c)
  {
    assert (lines + [line])[..|lines|] == lines;
  }

  lemma CleanSnoc(lines: seq<string>, line: string, indent: int, c: Classes)
    ensures CleanLines(lines + [line], indent, c) == CleanLines(lines, indent, c)
              + if !Blank(line) then [Cleaned(line, After(lines, c), indent, c)]
                else if |lines| == 0 || !Blank(lines[|lines| - 1]) then [""]
                else []
  {
    assert (lines + [line])[..|lines|] == lines;
  }

  predicate AllSteady(lines: seq<string>, indent: int, c: Classes) {
    forall k | 0 <= k < |lines| :: Steady(lines, k, indent, c)
  }

  lemma SteadyPrefix(init: seq<string>, line: string, k: nat, indent: int, c: Classes)
    requires k < |init|
    ensures Steady(init + [line], k, indent, c) == Steady(init, k, indent, c)
  {
    assert (init + [line])[..k] == init[..k];
  }

  lemma AllSteadySnoc(init: seq<string>, line: string, indent: int, c: Classes)
    ensures AllSteady(init + [line], indent, c) <==>
              AllSteady(init, indent, c) && Steady(init + [line], |init|, indent, c)
  {
    hide Steady;
    forall k | 0 <= k < |init|
      ensures Steady(init + [line], k, indent, c) == Steady(init, k, indent, c)
    {
      SteadyPrefix(init, line, k, indent, c);
    }
  }

  /** The second cleaning keeps the number of lines, has open what Again says, and changes nothing exactly when every
      line is steady. */
  lemma {:induction false} LinesAgain(lines: seq<string>, indent: int, c: Classes)
    requires LettersVisible(c) && forall k | 0 <= k < |lines| :: '\n' !in lines[k]
    ensures var once := CleanLines(lines, indent, c);
            && After(once, c) == Again(lines, indent, c)
            && |CleanLines(once, indent, c)| == |once|
            && (CleanLines(once, indent, c) == once <==> AllSteady(lines, indent, c))
  {
    hide Cleaned, Blank, Seen, DepthOf, PastOf, After, CleanLines, Steady, LettersVisible, Ident, Unclosed, Strip,
         SameIndent;
    hide AllSteady;
    if |lines| == 0 {
      NothingAgain(lines, indent, c);
    } else {
      var n := |lines| - 1;
      var init, line := lines[..n], lines[n];
      LinesAgain(init, indent, c);
      var before := CleanLines(init, indent, c);
      assert lines == init + [line];
      CleanSnoc(init, line, indent, c);
      AllSteadySnoc(init, line, indent, c);
      if Blank(line) {
        SteadyBlank(lines, n, indent, c);
        BlankAgain(init, indent, c);
        SameSnoc(CleanLines(before, indent, c), before, "", "");
        assert before + [] == before;
      } else {
        ContentAgain(init, line, indent, c);
        SteadyContent(lines, n, indent, c);
        var w := Cleaned(line, After(init, c), indent, c);
        SameSnoc(CleanLines(before, indent, c), before, Cleaned(w, Again(init, indent, c), indent, c), w);
      }
    }
  }

  lemma SameSnoc(a: seq<string>, b: seq<string>, x: string, y: string)
    requires |a| == |b|
    ensures a + [x] == b + [y] <==> a == b && x == y
  {
    if a + [x] == b + [y] {
      assert a == (a + [x])[..|a|] && b == (b + [y])[..|a|];
      assert x == (a + [x])[|a|] && y == (b + [y])[|a|];
    }
  }

  lemma NothingAgain(lines: seq<string>, indent: int, c: Classes)
    requires |lines| == 0
    ensures CleanLines(lines, indent, c) == [] && After([], c) == Again(lines, indent, c) &&
            CleanLines([], indent, c) == []
    ensures AllSteady(lines, indent, c)
  {
  }

  lemma SteadyBlank(lines: seq<string>, k: nat, indent: int, c: Classes)
    requires k < |lines| && Blank(lines[k])
    ensures Steady(lines, k, indent, c)
  {
  }

  lemma SteadyContent(lines: seq<string>, k: nat, indent: int, c: Classes)
    requires k < |lines| && !Blank(lines[k])
    ensures Steady(lines, k, indent, c) <==>
              SameIndent(DepthOf(Again(lines[..k], indent, c), Seen(lines[k], After(lines[..k], c), indent, c), c),
                         Depth(After(lines[..k], c), lines[k], c), indent)
  {
  }

  /** A blank line that is written once is written again. */
  lemma BlankAgain(init: seq<string>, indent: int, c: Classes)
    requires forall k | 0 <= k < |init| :: '\n' !in init[k]
    ensures var before := CleanLines(init, indent, c);
            && (|init| == 0 || !Blank(init[|init| - 1]) ==>
                  CleanLines(before + [""], indent, c) == CleanLines(before, indent, c) + [""]
                  && After(before + [""], c) == After(before, c))
  {
    hide Cleaned, Blank, After, CleanLines;
    var before := CleanLines(init, indent, c);
    OutputLines(init, indent, c);
    EmptyIsBlank();
    CleanSnoc(before, "", indent, c);
    AfterSnoc(before, "", c);
    if |init| == 0 {
      NothingAgain(init, indent, c);
    }
  }

  lemma ContentAgain(init: seq<string>, line: string, indent: int, c: Classes)
    requires LettersVisible(c) && !Blank(line)
    requires After(CleanLines(init, indent, c), c) == Again(init, indent, c)
    ensures var before, w, o' := CleanLines(init, indent, c), Cleaned(line, After(init, c), indent, c),
            Again(init, indent, c);
            && CleanLines(before + [w], indent, c) == CleanLines(before, indent, c) + [Cleaned(w, o', indent, c)]
            && After(before + [w], c) == PastOf(o', Seen(line, After(init, c), indent, c), Unclosed(Strip(line)), c)
            && (Cleaned(w, o', indent, c) == w <==>
                  SameIndent(DepthOf(o', Seen(line, After(init, c), indent, c), c), Depth(After(init, c), line, c),
                             indent))
  {
    hide Cleaned, Blank, After, Again, CleanLines, Seen, DepthOf, PastOf, SameIndent, LettersVisible, Ident,
         Unclosed, Strip;
    var before, w, o' := CleanLines(init, indent, c), Cleaned(line, After(init, c), indent, c), Again(init, indent, c);
    Reread(line, After(init, c), indent, c);
    CleanSnoc(before, w, indent, c);
    AfterSnoc(before, w, c);
    LineAgain(line, After(init, c), o', indent, c);
  }

  // ---- cleaning a text again -------------------------------------------------------------------------

  /** Cleaning a cleaned text changes nothing exactly when nothing but white space followed the last newline and
      every line is steady. */
  lemma CleanupAgain(text: string, indent: int, c: Classes)
    requires LettersVisible(c)
    ensures Cleanup(Cleanup(text, indent, c), indent, c) == Cleanup(text, indent, c)
       <==> Blank(Rest(text)) && AllSteady(Split(text), indent, c)
  {
    hide Lines, Rest, Blank, CleanLines, AllSteady, LettersVisible, Unlines;
    var lines := Split(text);
    var once := CleanLines(lines, indent, c);
    SplitLines(text);
    BlankLinesStandAlone(text, indent, c);
    OutputLines(lines, indent, c);
    LinesAgain(lines, indent, c);
    assert lines[|lines| - 1] == Rest(text);
    var out := Cleanup(text, indent, c);
    assert Split(out) == once + [""];
    EmptyIsBlank();
    CleanSnoc(once, "", indent, c);
    var twice := CleanLines(once, indent, c);
    BlankLinesStandAlone(out, indent, c);
    var last := CleanLines(once + [""], indent, c);
    assert Lines(Unlines(last)) == last && Lines(Unlines(once)) == once;
    if Blank(Rest(text)) {
      assert last == twice + [] == twice;
    } else {
      assert |last| == |once| + 1;
    }
  }

  // ---- texts that are stable -------------------------------------------------------------------------

  /** Every word that the first cleaning indents or brings to the first column leaves the nesting alone. */
  predicate Quiet(lines: seq<string>, k: nat, indent: int, c: Classes)
    requires k < |lines|
  {
    var o, word := After(lines[..k], c), Ident(lines[k], c);
    Blank(lines[k])
    || if Depth(o, lines[k], c) > 0 && indent > 0 then !Keyword(word) && !(o.paren > 0 && c.upper(word))
       else word == Ident(Strip(lines[k]), c)
  }

  /** If no line put at a positive depth starts with a keyword or an upper-case argument, and no other line had its
      first word indented, the second cleaning sees what the first saw, and changes no line. */
  lemma {:induction false} QuietLinesAreSteady(lines: seq<string>, indent: int, c: Classes)
    requires !c.upper("") && forall k | 0 <= k < |lines| :: Quiet(lines, k, indent, c)
    ensures Again(lines, indent, c) == After(lines, c) && AllSteady(lines, indent, c)
  {
    hide Ident, Unclosed, Strip, Blank, Quiet;
    if |lines| > 0 {
      var n := |lines| - 1;
      var init := lines[..n];
      forall k | 0 <= k < n
        ensures Quiet(init, k, indent, c)
      {
        QuietPrefix(lines, k, indent, c);
      }
      QuietLinesAreSteady(init, indent, c);
      QuietLine(lines, n, indent, c);
      assert lines == init + [lines[n]];
      AllSteadySnoc(init, lines[n], indent, c);
    }
  }

  lemma QuietPrefix(lines: seq<string>, k: nat, indent: int, c: Classes)
    requires k < |lines| - 1
    ensures Quiet(lines[..|lines| - 1], k, indent, c) == Quiet(lines, k, indent, c)
  {
    assert lines[..|lines| - 1][..k] == lines[..k];
  }

  lemma QuietLine(lines: seq<string>, k: nat, indent: int, c: Classes)
    requires k < |lines| && !c.upper("") && Quiet(lines, k, indent, c) &&
             Again(lines[..k], indent, c) == After(lines[..k], c)
    ensures Steady(lines, k, indent, c)
    ensures !Blank(lines[k]) ==>
              PastOf(After(lines[..k], c), Seen(lines[k], After(lines[..k], c), indent, c),
                     Unclosed(Strip(lines[k])), c)
              == Past(After(lines[..k], c), lines[k], c)
  {
    hide Ident, Unclosed, Strip, Blank, After, Again, Keyword, Outdented, BlockChange;
    NoKeywordNoChange("");
    NoKeywordNoChange(Ident(lines[k], c));
    EmptyIsNoKeyword();
  }

  lemma NoKeywordNoChange(word: string)
    ensures !Keyword(word) ==> !Outdented(word) && BlockChange(word) == 0
  {
  }

  lemma EmptyIsNoKeyword()
    ensures !Keyword("")
  {
    assert forall word | word in BLOCK_STARTS || word in BLOCK_MIDS || word in BLOCK_ENDS :: |word| > 0;
  }

  // ---- nested blocks lose their indent ----------------------------------------------------------------

  /** Lines that start in the first column, open no parentheses beyond their end, and close no block that is not
      open. */
  predicate Flat(lines: seq<string>, c: Classes) {
    forall k | 0 <= k < |lines| :: FlatLine(lines, k, c)
  }

  predicate FlatLine(lines: seq<string>, k: nat, c: Classes)
    requires k < |lines|
  {
    Blank(lines[k])
    || (lines[k] != "" && !IsSpace(lines[k][0]) && Unclosed(Strip(lines[k])) == 0 &&
        Depth(After(lines[..k], c), lines[k], c) >= 0)
  }

  lemma FlatPrefix(lines: seq<string>, c: Classes)
    requires Flat(lines, c) && |lines| > 0
    ensures Flat(lines[..|lines| - 1], c)
  {
    hide Blank, Unclosed, Strip, Depth, After;
    var init := lines[..|lines| - 1];
    forall k | 0 <= k < |init|
      ensures FlatLine(init, k, c)
    {
      assert FlatLine(lines, k, c) && init[..k] == lines[..k];
    }
  }

  /** In flat lines the second cleaning sees at most one open block. */
  lemma {:induction false} FlatState(lines: seq<string>, indent: int, c: Classes)
    requires LettersVisible(c) && indent > 0 && Flat(lines, c)
    ensures var o, o' := After(lines, c), Again(lines, indent, c);
            o.paren == o'.paren == 0 && o.block >= 0 && o'.block == if o.block > 0 then 1 else 0
  {
    hide Blank, Unclosed, Strip, Ident, LettersVisible, FlatLine, Seen, Flat, PastOf, DepthOf;
    if |lines| > 0 {
      var n := |lines| - 1;
      FlatPrefix(lines, c);
      FlatState(lines[..n], indent, c);
      if !Blank(lines[n]) {
        FlatAt(lines, n, c);
        FlatStep(lines[n], After(lines[..n], c), Again(lines[..n], indent, c), indent, c);
      }
    }
  }

  lemma FlatAt(lines: seq<string>, k: nat, c: Classes)
    requires Flat(lines, c) && k < |lines| && !Blank(lines[k])
    ensures lines[k] != "" && !IsSpace(lines[k][0]) && Unclosed(Strip(lines[k])) == 0 &&
            Depth(After(lines[..k], c), lines[k], c) >= 0
  {
    hide Blank, Unclosed, Strip, Depth, After;
    assert FlatLine(lines, k, c);
  }

  /** One flat line: what it leaves open, and when its indent is the same again. */
  lemma FlatStep(line: string, o: Open, o': Open, indent: int, c: Classes)
    requires LettersVisible(c) && indent > 0 && !Blank(line) && line != "" && !IsSpace(line[0]) &&
             Unclosed(Strip(line)) == 0
    requires o.paren == o'.paren == 0 && o.block >= 0 && o'.block == (if o.block > 0 then 1 else 0) &&
             Depth(o, line, c) >= 0
    ensures var p, p' := Past(o, line, c), PastOf(o', Seen(line, o, indent, c), 0, c);
            p.paren == p'.paren == 0 && p.block >= 0 && p'.block == if p.block > 0 then 1 else 0
    ensures SameIndent(DepthOf(o', Seen(line, o, indent, c), c), Depth(o, line, c), indent) <==> Depth(o, line, c) <= 1
  {
    hide Unclosed, Strip, Ident, Blank, LettersVisible, Outdented, BlockChange, IsSpace;
    IdentOfLine(line, c);
    var word := Ident(line, c);
    NoKeywordNoChange("");
    EmptyIsNoKeyword();
    WordsChange(word);
  }

  lemma WordsChange(word: string)
    ensures BlockChange(word) <= 1 && (Outdented(word) <==> BlockChange(word) == -1 || word in BLOCK_MIDS)
    ensures Outdented(word) ==> -1 <= BlockChange(word) <= 0
    ensures !Outdented(word) ==> 0 <= BlockChange(word) <= 1
  {
  }

  /** Cleaning flat lines again changes nothing exactly when no line is indented more than one level: inner blocks lose
      the rest of their indent. */
  lemma FlatLinesAgain(lines: seq<string>, indent: int, c: Classes)
    requires LettersVisible(c) && indent > 0 && Flat(lines, c)
    ensures AllSteady(lines, indent, c)
       <==> forall k | 0 <= k < |lines| && !Blank(lines[k]) :: Depth(After(lines[..k], c), lines[k], c) <= 1
  {
    hide Blank, Depth, After, Steady, LettersVisible, Flat;
    forall k | 0 <= k < |lines|
      ensures Steady(lines, k, indent, c) <==> Blank(lines[k]) || Depth(After(lines[..k], c), lines[k], c) <= 1
    {
      FlatSteady(lines, k, indent, c);
    }
  }

  lemma {:induction false} FlatTake(lines: seq<string>, k: nat, c: Classes)
    requires Flat(lines, c) && k <= |lines|
    ensures Flat(lines[..k], c)
    decreases |lines|
  {
    hide Flat;
    if k < |lines| {
      FlatPrefix(lines, c);
      FlatTake(lines[..|lines| - 1], k, c);
      assert lines[..|lines| - 1][..k] == lines[..k];
    } else {
      assert lines[..k] == lines;
    }
  }

  lemma FlatSteady(lines: seq<string>, k: nat, indent: int, c: Classes)
    requires LettersVisible(c) && indent > 0 && Flat(lines, c) && k < |lines|
    ensures Steady(lines, k, indent, c) <==> Blank(lines[k]) || Depth(After(lines[..k], c), lines[k], c) <= 1
  {
    hide Blank, LettersVisible, Flat, Seen, DepthOf, PastOf, SameIndent, After, Again, Unclosed, Strip, Ident;
    if Blank(lines[k]) {
      SteadyBlank(lines, k, indent, c);
    } else {
      FlatTake(lines, k, c);
      FlatState(lines[..k], indent, c);
      FlatAt(lines, k, c);
      FlatStep(lines[k], After(lines[..k], c), Again(lines[..k], indent, c), indent, c);
      SteadyContent(lines, k, indent, c);
    }
  }

  /** A flat text is stable exactly when nothing but white space follows its last newline and no line is indented
      more than one level. */
  lemma FlatTextAgain(text: string, indent: int, c: Classes)
    requires LettersVisible(c) && indent > 0 && Flat(Split(text), c)
    ensures Cleanup(Cleanup(text, indent, c), indent, c) == Cleanup(text, indent, c)
       <==> Blank(Rest(text)) && forall k | 0 <= k < |Split(text)| && !Blank(Split(text)[k]) ::
              Depth(After(Split(text)[..k], c), Split(text)[k], c) <= 1
  {
    hide Cleanup, Split, Rest, Blank, Flat, AllSteady, Depth, After, LettersVisible;
    CleanupAgain(text, indent, c);
    FlatLinesAgain(Split(text), indent, c);
  }

  /** Without an indent everything stays in the first column, and only the final newline matters. */
  lemma NoIndentAgain(text: string, indent: int, c: Classes)
    requires LettersVisible(c) && indent <= 0
    ensures Cleanup(Cleanup(text, indent, c), indent, c) == Cleanup(text, indent, c) <==> Blank(Rest(text))
  {
    hide Cleanup, Rest, Blank, LettersVisible, Seen, Depth, DepthOf;
    CleanupAgain(text, indent, c);
  }

  // ---- a text that is not stable ----------------------------------------------------------------------

  /** Two nested blocks around one line, all in the first column. */
  function Nested(): seq<string> { ["if" + "()", "if" + "()", "x" + "()", "endif" + "()", "endif" + "()"] }

  lemma NestedParts(c: Classes)
    requires Plain(c)
    ensures forall k | 0 <= k < 5 ::
              !Blank(Nested()[k]) && Nested()[k] != "" && !IsSpace(Nested()[k][0]) && Unclosed(Strip(Nested()[k])) == 0
    ensures Ident(Nested()[0], c) == Ident(Nested()[1], c) == "if" && Ident(Nested()[2], c) == "x"
    ensures Ident(Nested()[3], c) == Ident(Nested()[4], c) == "endif"
  {
    hide Ident, Strip, Blank, Unclosed;
    Call("if", c);
    Call("x", c);
    Call("endif", c);
  }

  lemma NestedDepths(c: Classes)
    requires Plain(c)
    ensures Flat(Nested() + [""], c)
    ensures Depth(After(Nested()[..2], c), Nested()[2], c) == 2
  {
    hide Ident, Strip, Blank, Unclosed;
    NestedParts(c);
    EmptyIsBlank();
    Words();
    var lines := Nested() + [""];
    assert forall k | 0 <= k <= 5 :: lines[..k] == Nested()[..k];
    var o1, o2, o3, o4 := After(lines[..1], c), After(lines[..2], c), After(lines[..3], c), After(lines[..4], c);
    assert lines[..1][..0] == [] && lines[..2][..1] == lines[..1] && lines[..3][..2] == lines[..2] &&
           lines[..4][..3] == lines[..3];
    assert lines[..0] == [] && After(lines[..0], c) == Open(0, 0, 0);
    assert o1 == Open(1, 0, 0) && o2 == Open(2, 0, 0) && o3 == Open(2, 0, 0) && o4 == Open(1, 0, 0);
    forall k | 0 <= k < 6
      ensures FlatLine(lines, k, c)
    {
    }
  }

  lemma Words()
    ensures BlockChange("if") == 1 && !Outdented("if") && BlockChange("x") == 0 && !Outdented("x")
    ensures BlockChange("endif") == -1 && Outdented("endif")
  {
  }

  /** Cleaned once, the line inside the two blocks is indented twice; cleaned again, only once. */
  lemma NestedBlocksFlatten(c: Classes)
    requires Plain(c)
    ensures Cleanup(Cleanup(Unlines(Nested()), 2, c), 2, c) != Cleanup(Unlines(Nested()), 2, c)
  {
    hide Cleanup, Lines, Rest, Blank, Flat, Depth, After, LettersVisible, Unlines;
    NestedHasNoNewline();
    LinesOfUnlines(Nested());
    NestedDepths(c);
    NestedParts(c);
    var lines := Split(Unlines(Nested()));
    assert lines == Nested() + [""];
    assert lines[..2] == Nested()[..2] && lines[2] == Nested()[2];
    FlatTextAgain(Unlines(Nested()), 2, c);
  }

  lemma NestedHasNoNewline()
    ensures forall k | 0 <= k < |Nested()| :: '\n' !in Nested()[k]
  {
  }
}
