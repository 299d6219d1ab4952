/** The words that open, continue and close blocks, and the layout they give to the lines around them. */
module CmakeBlocks {
  import opened Text
  import opened CmakeCleanup
  import opened CmakeIndent

  // ---- the words ------------------------------------------------------------------------------

  /** A word opens blocks exactly when it is one of these six. */
  lemma OpeningWords(word: string)
    ensures word in BLOCK_STARTS
       <==> word == "block" || word == "foreach" || word == "function" || word == "if" || word == "macro"
            || word == "while"
  {
  }

  /** A word opens blocks exactly when "end" in front of it gives a word that closes them. */
  lemma StartsHaveEnds(word: string)
    ensures word in BLOCK_STARTS <==> "end" + word in BLOCK_ENDS
  {
    if "end" + word in BLOCK_ENDS {
      var k :| 0 <= k < |BLOCK_ENDS| && BLOCK_ENDS[k] == "end" + word;
      assert word == BLOCK_ENDS[k][3..];
      assert BLOCK_STARTS[k] == BLOCK_ENDS[k][3..];
    }
    if word in BLOCK_STARTS {
      var k :| 0 <= k < |BLOCK_STARTS| && BLOCK_STARTS[k] == word;
      assert BLOCK_ENDS[k] == "end" + BLOCK_STARTS[k];
    }
  }

  /** And every closing word is made so. */
  lemma EndsHaveStarts(word: string)
    requires word in BLOCK_ENDS
    ensures |word| > 3 && word[..3] == "end" && word[3..] in BLOCK_STARTS
  {
    var k :| 0 <= k < |BLOCK_ENDS| && BLOCK_ENDS[k] == word;
    assert BLOCK_ENDS[k][..3] == "end" && BLOCK_STARTS[k] == BLOCK_ENDS[k][3..];
  }

  // ---- the layout -----------------------------------------------------------------------------

  /** Lower-case letters only. */
  predicate Lower(word: string) { forall k | 0 <= k < |word| :: 'a' <= word[k] <= 'z' }

  lemma OpenerIs(word: string, c: Classes)
    requires Plain(c) && word in BLOCK_STARTS
    ensures Lower(word) && Lower("end" + word) && word != ""
    ensures Ident(word + "()", c) == word && Ident("end" + word + "()", c) == "end" + word
    ensures Unclosed(Strip(word + "()")) == 0 == Unclosed(Strip("end" + word + "()"))
    ensures !Blank(word + "()") && !Blank("end" + word + "()")
    ensures Strip(word + "()") == word + "()" && Strip("end" + word + "()") == "end" + word + "()"
  {
    hide Ident, Strip, Blank, Unclosed;
    assert Lower(word);
    assert Lower("end" + word);
    Call(word, c);
    Call("end" + word, c);
  }

  /** Outside parentheses, with any of the six words in the first column: the line after word() stands one deeper unless
      it continues or ends a block, end-word() stands level with word(), and together they leave open what was open. */
  lemma BlockLayout(word: string, o: Open, next: string, c: Classes)
    requires Plain(c) && o.paren <= 0
    requires word == "block" || word == "foreach" || word == "function" || word == "if" || word == "macro"
             || word == "while"
    ensures Depth(Past(o, word + "()", c), "end" + word + "()", c) == Depth(o, word + "()", c)
    ensures Past(Past(o, word + "()", c), "end" + word + "()", c) == o
    ensures Ident(next, c) != "else" && Ident(next, c) != "elseif" && !("end" <= Ident(next, c)) ==>
              Depth(Past(o, word + "()", c), next, c) == Depth(o, word + "()", c) + 1
  {
    hide Ident, Strip, Blank, Unclosed;
    OpeningWords(word);
    OpenerIs(word, c);
    StartsHaveEnds(word);
    StartsAreNotOutdented(word);
    EndsAreNoMids("end" + word);
    if Outdented(Ident(next, c)) && Ident(next, c) !in BLOCK_MIDS {
      EndsHaveStarts(Ident(next, c));
    }
  }

  lemma EndsAreNoMids(word: string)
    requires word in BLOCK_ENDS
    ensures word !in BLOCK_MIDS
  {
  }

  /** else() and elseif() stand level with if() and leave its block open. */
  lemma MiddleLayout(mid: string, o: Open, c: Classes)
    requires Plain(c) && o.paren <= 0 && (mid == "else" || mid == "elseif")
    ensures Depth(Past(o, "if" + "()", c), mid + "()", c) == Depth(o, "if" + "()", c)
    ensures Past(Past(o, "if" + "()", c), mid + "()", c) == Past(o, "if" + "()", c)
    ensures Past(o, "if" + "()", c).block == o.block + 1
  {
    hide Ident, Strip, Blank, Unclosed;
    Call("if", c);
    Call(mid, c);
    assert "if" in BLOCK_STARTS && mid in BLOCK_MIDS;
    StartsAreNotOutdented("if");
  }

  /** One block around one line, cleaned: the line in it is indented once, and nothing else is. */
  lemma OneBlockCleaned(word: string, indent: int, c: Classes)
    requires Plain(c)
    requires word == "block" || word == "foreach" || word == "function" || word == "if" || word == "macro"
             || word == "while"
    ensures CleanLines([word + "()", "x" + "()", "end" + word + "()"], indent, c)
         == [word + "()", Spaces(1, indent) + ("x" + "()"), "end" + word + "()"]
  {
    hide Ident, Strip, Blank, Unclosed, Depth, Past, After, CleanLines, Squeezed, Plain;
    OpeningWords(word);
    OpenerIs(word, c);
    Call("x", c);
    BlockLayout(word, Open(0, 0, 0), "x" + "()", c);
    BodyKeepsBlock(word, c);
    var a, b, e := word + "()", "x" + "()", "end" + word + "()";
    FirstDepth(word, c);
    CallKept(word, c);
    CallKept("x", c);
    CallKept("end" + word, c);
    ThreeLines(a, b, e, indent, c);
    var o := Past(Open(0, 0, 0), a, c);
    assert Strip(b) == b && Squeezed(b) == b && Depth(o, b, c) == 1;
    assert Cleaned(b, o, indent, c) == Spaces(1, indent) + b;
    NoIndent(indent);
    assert Cleaned(a, Open(0, 0, 0), indent, c) == "" + a == a;
    assert Cleaned(e, o, indent, c) == "" + e == e;
  }

  lemma NoIndent(indent: int)
    ensures Spaces(0, indent) == ""
  {
  }

  lemma FirstDepth(word: string, c: Classes)
    requires Plain(c) && word in BLOCK_STARTS
    ensures Depth(Open(0, 0, 0), word + "()", c) == 0
  {
    hide Ident, Strip, Blank, Unclosed;
    OpenerIs(word, c);
    StartsAreNotOutdented(word);
  }

  /** A plain line between changes nothing. */
  lemma BodyKeepsBlock(word: string, c: Classes)
    requires Plain(c) && word in BLOCK_STARTS
    ensures var o := Past(Open(0, 0, 0), word + "()", c); Past(o, "x" + "()", c) == o
  {
    hide Ident, Strip, Blank, Unclosed;
    OpenerIs(word, c);
    StartsAreNotOutdented(word);
    Call("x", c);
    assert "x" !in BLOCK_STARTS && "x" !in BLOCK_MIDS && "x" !in BLOCK_ENDS;
  }

  /** A word with parentheses has no white space to lose. */
  lemma CallKept(word: string, c: Classes)
    requires Lower(word)
    ensures Squeezed(word + "()") == word + "()"
  {
    hide Squeezed, Guarded;
    assert NoDoubleSpace(word + "()");
    SqueezeFixedPoint(word + "()");
  }

  /** Three lines with content, cleaned one after another. */
  lemma ThreeLines(a: string, b: string, e: string, indent: int, c: Classes)
    requires !Blank(a) && !Blank(b) && !Blank(e)
    ensures var o := Past(Open(0, 0, 0), a, c);
            CleanLines([a, b, e], indent, c)
            == [Cleaned(a, Open(0, 0, 0), indent, c), Cleaned(b, o, indent, c), Cleaned(e, Past(o, b, c), indent, c)]
  {
    hide Blank, Cleaned, Past;
    assert [a, b, e][..2] == [a, b] && [a, b][..1] == [a] && [a][..0] == [];
    assert After([], c) == Open(0, 0, 0) && CleanLines([], indent, c) == [];
    assert After([a], c) == Past(Open(0, 0, 0), a, c);
    assert After([a, b], c) == Past(Past(Open(0, 0, 0), a, c), b, c);
    assert CleanLines([a], indent, c) == [Cleaned(a, Open(0, 0, 0), indent, c)];
    assert CleanLines([a, b], indent, c)
        == CleanLines([a], indent, c) + [Cleaned(b, Past(Open(0, 0, 0), a, c), indent, c)];
  }
}
