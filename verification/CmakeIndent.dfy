/** How far lines are indented: the nesting of blocks, parentheses and arguments, and which keywords count. */
module CmakeIndent {
  import opened Text
  import opened CmakeCleanup

  // ---- the indent follows the nesting ---------------------------------------------------------

  /** Blocks opened less blocks closed by these lines. */
  function Blocks(lines: seq<string>, c: Classes): int {
    if |lines| == 0 then 0
    else
      var last := lines[|lines| - 1];
      Blocks(lines[..|lines| - 1], c) + if Blank(last) then 0 else BlockChange(Ident(last, c))
  }

  function Parens(lines: seq<string>): int {
    if |lines| == 0 then 0
    else
      var last := lines[|lines| - 1];
      Parens(lines[..|lines| - 1]) + if Blank(last) then 0 else Unclosed(Strip(last))
  }

  lemma {:induction false} AfterIsNesting(lines: seq<string>, c: Classes)
    ensures After(lines, c).block == Blocks(lines, c) && After(lines, c).paren == Parens(lines)
  {
    hide Blank, Ident, Unclosed, Strip, BlockChange;
    if |lines| > 0 {
      AfterIsNesting(lines[..|lines| - 1], c);
    }
  }

  lemma {:induction false} BlocksConcat(a: seq<string>, b: seq<string>, c: Classes)
    ensures Blocks(a + b, c) == Blocks(a, c) + Blocks(b, c)
  {
    hide Blank, Ident, BlockChange;
    if |b| == 0 {
      assert a + b == a;
    } else {
      BlocksConcat(a, b[..|b| - 1], c);
      assert (a + b)[..|a + b| - 1] == a + b[..|b| - 1];
    }
  }

  /** Outside parentheses, a line that ends or continues a block stands level with the line that opens a block just
      when the lines between close as many blocks as they open; deeper or less deep by the difference otherwise. */
  lemma ClosersAlign(lines: seq<string>, i: nat, j: nat, c: Classes)
    requires i < j < |lines| && !Blank(lines[i]) && !Blank(lines[j])
    requires Ident(lines[i], c) in BLOCK_STARTS && Outdented(Ident(lines[j], c))
    requires Parens(lines[..i]) <= 0 && Parens(lines[..j]) == Parens(lines[..i])
    ensures Depth(After(lines[..j], c), lines[j], c)
              == Depth(After(lines[..i], c), lines[i], c) + Blocks(lines[i + 1..j], c)
  {
    hide Blank, Ident, Unclosed, Strip, Past, Blocks, Parens;
    AfterIsNesting(lines[..i], c);
    AfterIsNesting(lines[..j], c);
    assert lines[..j] == lines[..i] + [lines[i]] + lines[i + 1..j];
    BlocksConcat(lines[..i] + [lines[i]], lines[i + 1..j], c);
    BlocksConcat(lines[..i], [lines[i]], c);
    OneBlock(lines[i], c);
    StartsAreNotOutdented(Ident(lines[i], c));
  }

  lemma OneBlock(line: string, c: Classes)
    requires !Blank(line)
    ensures Blocks([line], c) == BlockChange(Ident(line, c))
  {
    hide Blank, Ident;
    assert [line][..0] == [];
  }

  lemma StartsAreNotOutdented(ident: string)
    requires ident in BLOCK_STARTS
    ensures !Outdented(ident) && BlockChange(ident) == 1
  {
  }

  predicate Keyword(ident: string) { ident in BLOCK_STARTS || Outdented(ident) }

  /** Inside parentheses, a line after an upper-case argument stands one deeper than the argument, the next upper-case
      argument stands level with it, and parentheses that the argument's line opens deepen both; once a line closes
      more than it opens, nothing is one deeper. */
  lemma ArgumentsAlign(o: Open, line: string, next: string, c: Classes)
    requires o.paren > 0 && c.upper(Ident(line, c)) && !Keyword(Ident(line, c)) && !Keyword(Ident(next, c))
    requires o.paren + Unclosed(Strip(line)) > 0
    ensures Depth(Past(o, line, c), next, c)
         == Depth(o, line, c) + Unclosed(Strip(line))
           + if Unclosed(Strip(line)) >= 0 && !c.upper(Ident(next, c)) then 1 else 0
  {
    hide Ident, Unclosed, Strip;
    assert BlockChange(Ident(line, c)) == 0;
  }

  // ---- the depth of every line, in closed form --------------------------------------------------

  /** Line i starts an upper-case argument inside parentheses. */
  predicate Argument(lines: seq<string>, i: nat, c: Classes)
    requires i < |lines|
  {
    !Blank(lines[i]) && Parens(lines[..i]) > 0 && c.upper(Ident(lines[i], c))
  }

  /** The line closes more parentheses than it opens. */
  predicate Closing(line: string) { !Blank(line) && Unclosed(Strip(line)) < 0 }

  /** An argument has started and no line since, its own included, closes more than it opens. */
  ghost predicate InArgument(lines: seq<string>, c: Classes) {
    exists i | 0 <= i < |lines| :: Argument(lines, i, c) && forall m | i <= m < |lines| :: !Closing(lines[m])
  }

  lemma ArgumentPrefix(lines: seq<string>, i: nat, c: Classes)
    requires i < |lines| - 1
    ensures Argument(lines[..|lines| - 1], i, c) == Argument(lines, i, c)
  {
    assert lines[..|lines| - 1][..i] == lines[..i];
  }

  /** One more line keeps an argument unless it closes more than it opens, and may start one. */
  lemma InArgumentSnoc(lines: seq<string>, c: Classes)
    requires |lines| > 0
    ensures InArgument(lines, c) <==>
              !Closing(lines[|lines| - 1]) && (Argument(lines, |lines| - 1, c) || InArgument(lines[..|lines| - 1], c))
  {
    hide Argument, Closing;
    var n := |lines| - 1;
    var init := lines[..n];
    if InArgument(lines, c) {
      var i :| 0 <= i < |lines| && Argument(lines, i, c) && forall m | i <= m < |lines| :: !Closing(lines[m]);
      if i < n {
        ArgumentPrefix(lines, i, c);
        assert forall m | i <= m < n :: init[m] == lines[m];
      }
    }
    if !Closing(lines[n]) && InArgument(init, c) {
      var i :| 0 <= i < n && Argument(init, i, c) && forall m | i <= m < n :: !Closing(init[m]);
      ArgumentPrefix(lines, i, c);
      forall m | i <= m < |lines|
        ensures !Closing(lines[m])
      {
        if m < n {
          assert init[m] == lines[m];
        }
      }
    }
  }

  /** The argument depth is one exactly while an argument runs, and otherwise zero. */
  lemma {:induction false} ArgumentRuns(lines: seq<string>, c: Classes)
    ensures After(lines, c).arg == if InArgument(lines, c) then 1 else 0
  {
    hide InArgument, Blank, Ident, Unclosed, Strip, BlockChange, Parens;
    if |lines| > 0 {
      var init := lines[..|lines| - 1];
      ArgumentRuns(init, c);
      AfterIsNesting(init, c);
      InArgumentSnoc(lines, c);
    } else {
      NoArgument(lines, c);
    }
  }

  lemma NoArgument(lines: seq<string>, c: Classes)
    requires |lines| == 0
    ensures !InArgument(lines, c)
  {
  }

  /** A line stands as deep as blocks and parentheses before it are open, one less when it ends or continues a block,
      and one more when, inside parentheses, it continues an argument. */
  lemma DepthIs(lines: seq<string>, k: nat, c: Classes)
    requires k < |lines|
    ensures Depth(After(lines[..k], c), lines[k], c)
         == Blocks(lines[..k], c) + Parens(lines[..k]) - (if Outdented(Ident(lines[k], c)) then 1 else 0)
          + if Parens(lines[..k]) > 0 && InArgument(lines[..k], c) && !c.upper(Ident(lines[k], c)) then 1 else 0
  {
    hide InArgument, Ident, Blocks, Parens, After, Outdented;
    AfterIsNesting(lines[..k], c);
    ArgumentRuns(lines[..k], c);
  }

  // ---- what a line is read for ------------------------------------------------------------------

  /** The text in front of the first comment sign. */
  function Code(s: string): (r: string)
    ensures r <= s && '#' !in r && (|r| < |s| ==> s[|r|] == '#')
  {
    if s == "" || s[0] == '#' then "" else [s[0]] + Code(s[1..])
  }

  /** How often a character occurs. */
  function Occurrences(ch: char, s: string): nat { multiset(s)[ch] }

  /** A line opens its opening parentheses less its closing ones, in front of the first comment sign. */
  lemma {:induction false} UnclosedIs(s: string)
    ensures Unclosed(s) == Occurrences('(', Code(s)) - Occurrences(')', Code(s))
  {
    if s != "" && s[0] != '#' {
      UnclosedIs(s[1..]);
      assert Code(s) == [s[0]] + Code(s[1..]);
      assert multiset(Code(s)) == multiset{s[0]} + multiset(Code(s[1..]));
    } else {
      assert Code(s) == "";
    }
  }

  /** The first word is the longest run of letters that a line starts with. */
  lemma {:induction false} IdentIs(line: string, c: Classes)
    ensures Ident(line, c) <= line && forall k | 0 <= k < |Ident(line, c)| :: c.alpha(line[k])
    ensures |Ident(line, c)| < |line| ==> !c.alpha(line[|Ident(line, c)|])
  {
    if line != "" && c.alpha(line[0]) {
      IdentIs(line[1..], c);
      assert line == [line[0]] + line[1..];
    }
  }

  // ---- which keywords count -----------------------------------------------------------------------

  /** No letter is white space. */
  ghost predicate LettersVisible(c: Classes) { forall ch | c.alpha(ch) :: !IsSpace(ch) }

  lemma {:induction false} IdentTail(s: string, tail: string, c: Classes)
    requires LettersVisible(c) && forall k | 0 <= k < |tail| :: IsSpace(tail[k])
    ensures Ident(s + tail, c) == Ident(s, c)
  {
    if s == "" {
      assert s + tail == tail;
    } else if c.alpha(s[0]) {
      IdentTail(s[1..], tail, c);
      assert (s + tail)[1..] == s[1..] + tail;
    }
  }

  /** The first word is read before the line is stripped: a line that starts with white space has none. */
  lemma IdentOfLine(line: string, c: Classes)
    requires !Blank(line) && LettersVisible(c)
    ensures line != "" && Ident(line, c) == if IsSpace(line[0]) then "" else Ident(Strip(line), c)
  {
    hide StripRight, StripLeft, IsSpace, Ident;
    NotEmpty(line);
    if IsSpace(line[0]) {
      NoIdent(line, c);
    } else {
      NothingToStrip(line);
      var t := StripRight(line);
      IdentTail(t, line[|t|..], c);
      assert t + line[|t|..] == line;
    }
  }

  lemma NotEmpty(line: string)
    requires !Blank(line)
    ensures line != ""
  {
  }

  lemma NoIdent(line: string, c: Classes)
    requires line != "" && !c.alpha(line[0])
    ensures Ident(line, c) == ""
  {
  }

  lemma NothingToStrip(line: string)
    requires line != "" && !IsSpace(line[0])
    ensures StripLeft(line) == line
  {
    hide IsSpace;
  }

  lemma IndentedLinesKeepBlocks(line: string, c: Classes)
    requires line != "" && !c.alpha(line[0])
    ensures !Keyword(Ident(line, c)) && !Outdented(Ident(line, c)) && BlockChange(Ident(line, c)) == 0
  {
    assert forall ident | ident in BLOCK_STARTS || ident in BLOCK_MIDS || ident in BLOCK_ENDS :: |ident| > 0;
  }

  /** A line that reads as a keyword counts as one exactly when it is not indented. */
  lemma FirstColumnCounts(line: string, c: Classes)
    requires !Blank(line) && LettersVisible(c)
    ensures Keyword(Ident(line, c)) <==> !IsSpace(line[0]) && Keyword(Ident(Strip(line), c))
    ensures BlockChange(Ident(line, c)) == if IsSpace(line[0]) then 0 else BlockChange(Ident(Strip(line), c))
  {
    hide Ident, Strip, Blank, Keyword, BlockChange;
    IdentOfLine(line, c);
    if IsSpace(line[0]) {
      IndentedLinesKeepBlocks(line, c);
    }
  }

  /** Letters and what is not one, as far as the examples below need them. */
  ghost predicate Plain(c: Classes) {
    LettersVisible(c) && (forall ch | 'a' <= ch <= 'z' :: c.alpha(ch)) && !c.alpha('(') && !c.upper("")
  }

  /** A word followed by empty parentheses. */
  lemma {:induction false} Call(word: string, c: Classes)
    requires Plain(c) && word != "" && forall k | 0 <= k < |word| :: 'a' <= word[k] <= 'z'
    ensures Strip(word + "()") == word + "()" && !Blank(word + "()")
    ensures Ident(word + "()", c) == word && Unclosed(word + "()") == 0
  {
    hide Unclosed, Ident;
    assert StripLeft(word + "()") == word + "()";
    assert StripRight(word + "()") == word + "()";
    CallIdent(word, c);
    CallUnclosed(word);
  }

  lemma {:induction false} CallIdent(word: string, c: Classes)
    requires Plain(c) && forall k | 0 <= k < |word| :: 'a' <= word[k] <= 'z'
    ensures Ident(word + "()", c) == word
  {
    if word != "" {
      CallIdent(word[1..], c);
      assert (word + "()")[1..] == word[1..] + "()";
    } else {
      assert word + "()" == "()";
    }
  }

  lemma {:induction false} CallUnclosed(word: string)
    requires forall k | 0 <= k < |word| :: 'a' <= word[k] <= 'z'
    ensures Unclosed(word + "()") == 0
  {
    if word != "" {
      CallUnclosed(word[1..]);
      assert (word + "()")[1..] == word[1..] + "()";
    } else {
      assert word + "()" == "()" && "()"[1..] == ")" && ")"[1..] == "";
    }
  }

  lemma TwoBlocks(a: string, b: string, c: Classes)
    requires !Blank(a) && !Blank(b)
    ensures Blocks([a, b], c) == BlockChange(Ident(a, c)) + BlockChange(Ident(b, c))
  {
    hide Blank, Ident, BlockChange;
    OneBlock(a, c);
    assert [a, b][..1] == [a];
  }

  /** Indenting the line that ends a block leaves the block open. */
  lemma IndentedEndKeepsBlock(opener: string, closer: string, lead: string, c: Classes)
    requires LettersVisible(c) && !Blank(opener) && !Blank(closer) && Strip(closer) == closer
    requires BlockChange(Ident(opener, c)) == 1 && BlockChange(Ident(closer, c)) == -1
    requires lead != "" && forall k | 0 <= k < |lead| :: IsSpace(lead[k])
    ensures Blocks([opener, closer], c) == 0 && Blocks([opener, lead + closer], c) == 1
  {
    hide Ident, Blocks, BlockChange, Strip, Blank, StripLeft, IsSpace, Keyword;
    StripEnds(closer);
    StripLead(lead, closer);
    assert (lead + closer)[0] == lead[0];
    FirstColumnCounts(lead + closer, c);
    TwoBlocks(opener, closer, c);
    TwoBlocks(opener, lead + closer, c);
  }

  /** An indented endif does not end the block that the same word ends in the first column. */
  lemma IndentedEndif(c: Classes)
    requires Plain(c)
    ensures Blocks(["if" + "()", "endif" + "()"], c) == 0 && Blocks(["if" + "()", "  " + ("endif" + "()")], c) == 1
  {
    hide Ident, Strip, Blank, Blocks, Unclosed;
    Call("if", c);
    Call("endif", c);
    assert "if" in BLOCK_STARTS && "endif" in BLOCK_ENDS;
    IndentedEndKeepsBlock("if" + "()", "endif" + "()", "  ", c);
  }

  lemma StripEnds(line: string)
    requires !Blank(line)
    ensures Strip(line) != "" && !IsSpace(Strip(line)[0]) && !IsSpace(Strip(line)[|Strip(line)| - 1])
  {
    StripStart(line);
  }

  lemma {:induction false} StripLeftLead(lead: string, s: string)
    requires s != "" && !IsSpace(s[0]) && forall k | 0 <= k < |lead| :: IsSpace(lead[k])
    ensures StripLeft(lead + s) == s
  {
    hide IsSpace;
    if lead == "" {
      assert lead + s == s;
    } else {
      StripLeftLead(lead[1..], s);
      assert (lead + s)[1..] == lead[1..] + s;
    }
  }

  /** White space in front of a text that starts and ends visibly is stripped off. */
  lemma StripLead(lead: string, s: string)
    requires s != "" && !IsSpace(s[0]) && !IsSpace(s[|s| - 1]) && forall k | 0 <= k < |lead| :: IsSpace(lead[k])
    ensures Strip(lead + s) == s && !Blank(lead + s) && StripLeft(lead + s) == s
  {
    StripLeftLead(lead, s);
  }
}
