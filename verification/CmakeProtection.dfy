/** What re-indenting does to text inside comments and inside quotes that open on the same line: it loses what trails on
    the line, and nothing else.  Quotes that span lines are the subject of CmakeStrings. */
module CmakeProtection {
  import opened Text
  import opened CmakeCleanup

  // ---- white space around a text ------------------------------------------------------------------

  ghost predicate AllSpace(s: string) { forall k | 0 <= k < |s| :: IsSpace(s[k]) }

  lemma {:induction false} NoQuotes(s: string)
    requires AllSpace(s)
    ensures Quotes(s) == 0 && '#' !in s
  {
    if s != "" {
      NoQuotes(s[..|s| - 1]);
    }
  }

  lemma {:induction false} QuotesConcat(a: string, b: string)
    ensures Quotes(a + b) == Quotes(a) + Quotes(b)
  {
    if b == "" {
      assert a + b == a;
    } else {
      QuotesConcat(a, b[..|b| - 1]);
      assert (a + b)[..|a + b| - 1] == a + b[..|b| - 1];
    }
  }

  lemma GuardedAfterLead(lead: string, s: string, k: nat)
    requires AllSpace(lead) && k <= |s|
    ensures Guarded(lead + s, |lead| + k) == Guarded(s, k)
  {
    assert (lead + s)[..|lead| + k] == lead + s[..k];
    NoQuotes(lead);
    QuotesConcat(lead, s[..k]);
  }

  lemma GuardedInTail(s: string, tail: string, k: nat)
    requires AllSpace(tail) && k <= |tail|
    ensures Guarded(s + tail, |s| + k) == Guarded(s, |s|)
  {
    assert (s + tail)[..|s| + k] == s + tail[..k] && s[..|s|] == s;
    NoQuotes(tail[..k]);
    QuotesConcat(s, tail[..k]);
  }

  lemma {:induction false} ProtectedAfterLead(lead: string, s: string, n: nat)
    requires AllSpace(lead) && n <= |lead| + |s|
    ensures ProtectedUpTo(lead + s, n) == ProtectedUpTo(s, if n < |lead| then 0 else n - |lead|)
  {
    hide Guarded, AllSpace;
    if n > 0 {
      ProtectedAfterLead(lead, s, n - 1);
      if n <= |lead| {
        LeadUnguarded(lead, s, n - 1);
      } else {
        GuardedAfterLead(lead, s, n - 1 - |lead|);
      }
    }
  }

  lemma LeadUnguarded(lead: string, s: string, k: nat)
    requires AllSpace(lead) && k <= |lead|
    ensures !Guarded(lead + s, k)
  {
    assert (lead + s)[..k] == lead[..k];
    NoQuotes(lead[..k]);
  }

  lemma {:induction false} ProtectedInTail(s: string, tail: string, k: nat)
    requires AllSpace(tail) && k <= |tail|
    ensures ProtectedUpTo(s + tail, |s| + k) == Protected(s) + if Guarded(s, |s|) then tail[..k] else ""
  {
    hide Guarded, AllSpace;
    if k == 0 {
      ProtectedPrefix(s, tail, |s|);
    } else {
      ProtectedInTail(s, tail, k - 1);
      GuardedInTail(s, tail, k - 1);
      assert tail[..k] == tail[..k - 1] + [tail[k - 1]];
    }
  }

  // ---- one line -----------------------------------------------------------------------------------

  /** The white space that stripping takes off the end of a line. */
  function Tail(line: string): (r: string)
    ensures AllSpace(r)
  {
    hide IsSpace;
    StripLeft(line)[|Strip(line)|..]
  }

  /** Nothing trails on the line, or what trails is neither inside quotes nor in a comment. */
  predicate Trim(line: string) { Tail(line) == "" || !Guarded(line, |line|) }

  lemma Parts(line: string) returns (lead: string)
    ensures AllSpace(lead) && line == lead + (Strip(line) + Tail(line))
  {
    hide StripLeft, StripRight, IsSpace;
    var l := StripLeft(line);
    assert l == Strip(line) + Tail(line);
    lead := line[..|line| - |StripLeft(line)|];
  }

  /** The protected characters of a line are those of the stripped line, and what trails if it is protected. */
  lemma ProtectedOfLine(line: string)
    ensures Protected(line) == Protected(Strip(line)) + if Guarded(line, |line|) then Tail(line) else ""
    ensures Guarded(line, |line|) == Guarded(Strip(line), |Strip(line)|)
  {
    hide Strip, Tail, Guarded, AllSpace, ProtectedUpTo;
    var t, tail := Strip(line), Tail(line);
    var lead := Parts(line);
    ProtectedAfterLead(lead, t + tail, |line|);
    ProtectedInTail(t, tail, |tail|);
    GuardedAfterLead(lead, t + tail, |t + tail|);
    GuardedInTail(t, tail, |tail|);
    assert tail[..|tail|] == tail;
  }

  /** An output line keeps the protected characters of the stripped line, and so those of the whole line exactly when
      nothing protected trails on it. */
  lemma LineKeepsProtected(line: string, o: Open, indent: int, c: Classes)
    ensures Protected(Cleaned(line, o, indent, c)) == Protected(Strip(line))
    ensures Protected(Cleaned(line, o, indent, c)) == Protected(line) <==> Trim(line)
  {
    hide Strip, Tail, Guarded, AllSpace, ProtectedUpTo, Squeezed, Depth;
    var spaces, r := Spaces(Depth(o, line, c), indent), Squeezed(Strip(line));
    SpacesAreSpace(spaces);
    ProtectedAfterLead(spaces, r, |spaces + r|);
    SqueezeKeepsProtected(Strip(line));
    ProtectedOfLine(line);
  }

  lemma SpacesAreSpace(s: string)
    requires forall k | 0 <= k < |s| :: s[k] == ' '
    ensures AllSpace(s)
  {
  }

  lemma BlankHasNothingProtected(line: string)
    requires Blank(line)
    ensures Protected(line) == "" && Trim(line)
  {
    hide Guarded, ProtectedUpTo;
    ProtectedOfLine(line);
    NothingProtected();
    NothingTrails(line);
  }

  lemma NothingTrails(line: string)
    requires Blank(line)
    ensures Tail(line) == ""
  {
    var l := StripLeft(line);
    if l != "" {
      StripRightKeepsFirst(l);
    }
  }

  lemma {:induction false} StripRightKeepsFirst(s: string)
    requires s != "" && !IsSpace(s[0])
    ensures StripRight(s) != ""
  {
    if |s| > 1 {
      StripRightKeepsFirst(s[..|s| - 1]);
    }
  }

  /** An open quote at the end of a line: cleaning drops the blank inside the quotes. */
  lemma OpenQuoteLosesBlank(o: Open, indent: int, c: Classes)
    ensures Protected("\"a ") == "a " && Protected(Cleaned("\"a ", o, indent, c)) == "a"
  {
    hide Guarded, Protected, ProtectedUpTo, Cleaned;
    StripsQuote();
    QuoteIsOpen();
    ProtectedOfLine("\"a ");
    LineKeepsProtected("\"a ", o, indent, c);
  }

  lemma StripsQuote()
    ensures Strip("\"a ") == "\"a" && Tail("\"a ") == " "
  {
    assert StripLeft("\"a ") == "\"a ";
    assert "\"a "[..2] == "\"a" && StripRight("\"a") == "\"a";
  }

  lemma QuoteIsOpen()
    ensures Guarded("\"a", 2) && Protected("\"a") == "a"
  {
    assert "\"a"[..0] == "" && "\"a"[..1] == "\"" && "\"a"[..2] == "\"a" && "\""[..0] == "";
    assert Quotes("\"") == 1 && Quotes("\"a") == 1;
    assert !Guarded("\"a", 0) && Guarded("\"a", 1);
    assert ProtectedUpTo("\"a", 0) == "" && ProtectedUpTo("\"a", 1) == "";
  }

  // ---- the file -----------------------------------------------------------------------------------

  /** The protected characters of all lines, in order. */
  function ProtectedLines(lines: seq<string>): string {
    if |lines| == 0 then "" else ProtectedLines(lines[..|lines| - 1]) + Protected(lines[|lines| - 1])
  }

  lemma ProtectedSnocLine(lines: seq<string>, line: string)
    ensures ProtectedLines(lines + [line]) == ProtectedLines(lines) + Protected(line)
  {
    assert (lines + [line])[..|lines|] == lines;
  }

  predicate AllTrim(lines: seq<string>) { forall k | 0 <= k < |lines| :: Trim(lines[k]) }

  lemma AllTrimSnoc(init: seq<string>, line: string)
    ensures AllTrim(init + [line]) <==> AllTrim(init) && Trim(line)
  {
    hide Trim;
    if AllTrim(init + [line]) {
      assert forall k | 0 <= k < |init| :: (init + [line])[k] == init[k];
      assert (init + [line])[|init|] == line;
    }
  }

  /** The output never gains protected characters, and loses none exactly when no line has protected white space
      trailing. */
  lemma {:induction false} LinesKeepProtected(lines: seq<string>, indent: int, c: Classes)
    ensures |ProtectedLines(CleanLines(lines, indent, c))| <= |ProtectedLines(lines)|
    ensures ProtectedLines(CleanLines(lines, indent, c)) == ProtectedLines(lines) <==> AllTrim(lines)
  {
    hide Blank, Cleaned, After, Protected, Trim, AllTrim, CleanLines, ProtectedLines;
    if |lines| > 0 {
      var n := |lines| - 1;
      var init, line := lines[..n], lines[n];
      LinesKeepProtected(init, indent, c);
      var before, o := CleanLines(init, indent, c), After(init, c);
      assert lines == init + [line];
      AllTrimSnoc(init, line);
      ProtectedSnocLine(init, line);
      OutputSnoc(init, line, indent, c);
      if Blank(line) {
        BlankHasNothingProtected(line);
        assert ProtectedLines(init) + "" == ProtectedLines(init);
      } else {
        LineKeepsProtected(line, o, indent, c);
        ShorterParts(ProtectedLines(before), Protected(Cleaned(line, o, indent, c)), ProtectedLines(init),
                     Protected(line));
        LineLosesOnly(line, o, indent, c);
      }
    } else {
      NoProtectedLines(lines, indent, c);
    }
  }

  lemma NoProtectedLines(lines: seq<string>, indent: int, c: Classes)
    requires |lines| == 0
    ensures ProtectedLines(CleanLines(lines, indent, c)) == ProtectedLines(lines) && AllTrim(lines)
  {
  }

  /** What one more line adds to the protected characters of the output. */
  lemma OutputSnoc(init: seq<string>, line: string, indent: int, c: Classes)
    ensures ProtectedLines(CleanLines(init + [line], indent, c)) == ProtectedLines(CleanLines(init, indent, c))
              + if Blank(line) then "" else Protected(Cleaned(line, After(init, c), indent, c))
  {
    hide Blank, Cleaned, After, Protected, ProtectedLines;
    assert (init + [line])[..|init|] == init;
    var before := CleanLines(init, indent, c);
    NothingProtected();
    ProtectedSnocLine(before, "");
    ProtectedSnocLine(before, Cleaned(line, After(init, c), indent, c));
    assert before + [] == before && ProtectedLines(before) + "" == ProtectedLines(before);
  }

  lemma LineLosesOnly(line: string, o: Open, indent: int, c: Classes)
    ensures |Protected(Cleaned(line, o, indent, c))| <= |Protected(line)|
  {
    hide Cleaned, Protected, Strip, Guarded, Trim, Tail;
    LineKeepsProtected(line, o, indent, c);
    ProtectedOfLine(line);
  }

  /** Two texts whose parts are no longer than another two's are equal to them only part by part. */
  lemma ShorterParts(a: string, b: string, x: string, y: string)
    ensures |a| <= |x| && |b| <= |y| ==> (a + b == x + y <==> a == x && b == y)
  {
    if |a| <= |x| && |b| <= |y| && a + b == x + y {
      assert |a| == |x|;
      assert a == (a + b)[..|a|] == x && b == (a + b)[|a|..] == y;
    }
  }

  /** Reading quotes afresh on every line, cleaning a text keeps every character inside them and inside comments exactly
      when no line has white space trailing after a quote that it leaves open or in a comment. */
  lemma CleanupKeepsProtected(text: string, indent: int, c: Classes)
    ensures ProtectedLines(Lines(Cleanup(text, indent, c))) == ProtectedLines(Split(text))
       <==> AllTrim(Split(text))
  {
    hide Split, Lines, CleanLines, ProtectedLines, AllTrim, Unlines;
    BlankLinesStandAlone(text, indent, c);
    LinesKeepProtected(Split(text), indent, c);
  }

  // ---- runs of white space --------------------------------------------------------------------

  /** What is kept of a text does not depend on what follows. */
  lemma {:induction false} KeptPrefix(a: string, b: string, n: nat)
    requires n <= |a|
    ensures Kept(a + b, n) == Kept(a, n)
  {
    hide Guarded;
    if n > 0 {
      KeptPrefix(a, b, n - 1);
      assert (a + b)[n - 1] == a[n - 1] && (n > 1 ==> (a + b)[n - 2] == a[n - 2]);
      GuardedPrefix(a, b, n - 1);
    }
  }

  lemma GuardedPrefix(a: string, b: string, n: nat)
    requires n <= |a|
    ensures Guarded(a + b, n) == Guarded(a, n)
  {
    assert (a + b)[..n] == a[..n];
  }

  /** Of a run of white space in code only the first character is kept. */
  lemma {:induction false} KeptInRun(a: string, w: string, k: nat)
    requires AllSpace(w) && 0 < k <= |w| && !Guarded(a, |a|) && (a == "" || !IsSpace(a[|a| - 1]))
    ensures Kept(a + w, |a| + k) == Squeezed(a) + [w[0]]
  {
    hide Guarded, IsSpace;
    var s := a + w;
    GuardedInTail(a, w, k - 1);
    assert s[|a| + k - 1] == w[k - 1];
    if k == 1 {
      KeptPrefix(a, w, |a|);
      assert |a| > 0 ==> s[|a| - 1] == a[|a| - 1];
    } else {
      KeptInRun(a, w, k - 1);
      assert s[|a| + k - 2] == w[k - 2];
    }
  }

  /** After runs that both end in white space, the same text is kept alike. */
  lemma {:induction false} KeptAfterRun(a: string, w: string, v: string, b: string, j: nat)
    requires AllSpace(w) && AllSpace(v) && w != "" && v != "" && j <= |b|
    requires Squeezed(a + w) == Squeezed(a + v)
    ensures Kept(a + w + b, |a| + |w| + j) == Kept(a + v + b, |a| + |v| + j)
  {
    hide Guarded, IsSpace;
    if j == 0 {
      KeptPrefix(a + w, b, |a + w|);
      KeptPrefix(a + v, b, |a + v|);
    } else {
      KeptAfterRun(a, w, v, b, j - 1);
      GuardedAfterRun(a, w, b, j - 1);
      GuardedAfterRun(a, v, b, j - 1);
      SameStep(a, w, b, j);
      SameStep(a, v, b, j);
    }
  }

  /** The character at a place after a run, and whether white space stands before it. */
  lemma SameStep(a: string, w: string, b: string, j: nat)
    requires AllSpace(w) && w != "" && 0 < j <= |b|
    ensures (a + w + b)[|a| + |w| + j - 1] == b[j - 1]
    ensures IsSpace((a + w + b)[|a| + |w| + j - 2]) <==> j == 1 || IsSpace(b[j - 2])
  {
    hide IsSpace;
    if j == 1 {
      assert (a + w + b)[|a| + |w| - 1] == w[|w| - 1];
    } else {
      assert (a + w + b)[|a| + |w| + j - 2] == b[j - 2];
    }
  }

  lemma GuardedAfterRun(a: string, w: string, b: string, j: nat)
    requires AllSpace(w) && j <= |b|
    ensures Guarded(a + w + b, |a| + |w| + j) == Guarded(a + b, |a| + j)
  {
    hide IsSpace;
    assert (a + w + b)[..|a| + |w| + j] == a + w + b[..j] && (a + b)[..|a| + j] == a + b[..j];
    QuotesConcat(a, w);
    QuotesConcat(a + w, b[..j]);
    QuotesConcat(a, b[..j]);
    NoQuotes(w);
  }

  /** A run of white space in code collapses to its first character, whatever follows. */
  lemma RunCollapses(a: string, w: string, b: string)
    requires AllSpace(w) && w != "" && !Guarded(a, |a|) && (a == "" || !IsSpace(a[|a| - 1]))
    ensures Squeezed(a + w) == Squeezed(a) + [w[0]]
    ensures Squeezed(a + w + b) == Squeezed(a + [w[0]] + b)
  {
    hide Guarded, IsSpace, Kept;
    KeptInRun(a, w, |w|);
    KeptInRun(a, [w[0]], 1);
    KeptAfterRun(a, w, [w[0]], b, |b|);
  }

  /** In front of a comment sign and outside quotes nothing is guarded, inside and after them everything is. */
  lemma GuardedIs(s: string, k: nat)
    requires k <= |s|
    ensures '"' !in s[..k] && '#' !in s[..k] ==> !Guarded(s, k)
    ensures forall j | 0 <= j < k && s[j] == '#' :: Guarded(s, k)
    ensures forall j | 0 <= j < k && s[j] == '"' && '"' !in s[..j] && '"' !in s[j + 1..k] :: Guarded(s, k)
  {
    if '"' !in s[..k] {
      WithoutQuotes(s[..k]);
    }
    forall j | 0 <= j < k && s[j] == '#'
      ensures Guarded(s, k)
    {
      assert s[..k][j] == '#';
    }
    forall j | 0 <= j < k && s[j] == '"' && '"' !in s[..j] && '"' !in s[j + 1..k]
      ensures Guarded(s, k)
    {
      assert s[..k] == s[..j] + ['"'] + s[j + 1..k];
      QuotesConcat(s[..j], ['"']);
      QuotesConcat(s[..j] + ['"'], s[j + 1..k]);
      WithoutQuotes(s[..j]);
      WithoutQuotes(s[j + 1..k]);
    }
  }

  lemma {:induction false} WithoutQuotes(s: string)
    requires '"' !in s
    ensures Quotes(s) == 0
  {
    if s != "" {
      WithoutQuotes(s[..|s| - 1]);
    }
  }
}
