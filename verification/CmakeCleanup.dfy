/** Re-indenting CMake text: what is kept, what is dropped, and how far a line is indented. */
module CmakeCleanup {
  import opened Text

  const BLOCK_STARTS := ["block", "foreach", "function", "if", "macro", "while"]
  const BLOCK_MIDS := ["else", "elseif"]
  const BLOCK_ENDS := ["endblock", "endforeach", "endfunction", "endif", "endmacro", "endwhile"]

  /** Python's str.isalpha on a character and str.isupper on a string. */
  datatype Classes = Classes(alpha: char -> bool, upper: string -> bool)

  // ---- one line: which characters survive -----------------------------------------------------

  function Quotes(s: string): nat {
    if s == "" then 0 else Quotes(s[..|s| - 1]) + if s[|s| - 1] == '"' then 1 else 0
  }

  /** Position k is inside quotes or after a comment sign.  A comment sign counts even inside quotes. */
  predicate Guarded(s: string, k: nat)
    requires k <= |s|
  {
    Quotes(s[..k]) % 2 == 1 || '#' in s[..k]
  }

  /** The characters that cleaning removes: unguarded white space after white space. */
  predicate Dropped(s: string, k: nat)
    requires k < |s|
  {
    IsSpace(s[k]) && 0 < k && IsSpace(s[k - 1]) && !Guarded(s, k)
  }

  function Squeezed(s: string): string { Kept(s, |s|) }

  function Kept(s: string, n: nat): string
    requires n <= |s|
  {
    if n == 0 then "" else Kept(s, n - 1) + if Dropped(s, n - 1) then "" else [s[n - 1]]
  }

  /** The characters that are not white space. */
  function Visible(s: string): string {
    if s == "" then "" else Visible(s[..|s| - 1]) + if IsSpace(s[|s| - 1]) then "" else [s[|s| - 1]]
  }

  /** The characters inside quotes or a comment. */
  function Protected(s: string): string { ProtectedUpTo(s, |s|) }

  function ProtectedUpTo(s: string, n: nat): string
    requires n <= |s|
  {
    if n == 0 then "" else ProtectedUpTo(s, n - 1) + if Guarded(s, n - 1) then [s[n - 1]] else ""
  }

  /** White space after white space only inside quotes or a comment. */
  ghost predicate NoDoubleSpace(s: string) {
    forall k | 0 <= k < |s| :: !Dropped(s, k)
  }

  method Squeeze(stripped: string) returns (out: string)
    ensures out == Squeezed(stripped)
  {
    out := "";
    var spaces, quoted, comment := 0, false, false;
    for k := 0 to |stripped|
      invariant out == Kept(stripped, k)
      invariant comment <==> '#' in stripped[..k]
      invariant !comment ==> (quoted <==> Quotes(stripped[..k]) % 2 == 1)
      invariant !comment ==> 0 <= spaces && (spaces != 0 <==> 0 < k && IsSpace(stripped[k - 1]))
    {
      var ch := stripped[k];
      assert stripped[..k + 1][..k] == stripped[..k];
      if comment {
        out := out + [ch];
      } else if IsSpace(ch) {
        if spaces == 0 || quoted {
          out := out + [ch];
        }
        spaces := spaces + 1;
      } else if ch == '"' {
        spaces := 0;
        quoted := !quoted;
        out := out + [ch];
      } else if ch == '#' {
        spaces := 0;
        out := out + [ch];
        comment := true;
      } else {
        spaces := 0;
        out := out + [ch];
      }
    }
  }

  lemma KeptStep(s: string, n: nat)
    requires 0 < n <= |s|
    ensures Dropped(s, n - 1) ==> Kept(s, n) == Kept(s, n - 1)
    ensures !Dropped(s, n - 1) ==>
              Kept(s, n) == Kept(s, n - 1) + [s[n - 1]] && Kept(s, n)[..|Kept(s, n)| - 1] == Kept(s, n - 1)
    ensures s[..n][..n - 1] == s[..n - 1]
  {
    assert Kept(s, n - 1) + "" == Kept(s, n - 1);
  }

  /** The quotes and the comment sign stand where they stood: a kept position is guarded as before. */
  lemma {:induction false} KeptGuards(s: string, n: nat)
    requires n <= |s|
    ensures Quotes(Kept(s, n)) == Quotes(s[..n])
    ensures '#' in Kept(s, n) <==> '#' in s[..n]
    ensures n > 0 ==> Kept(s, n) != "" && (IsSpace(Kept(s, n)[|Kept(s, n)| - 1]) <==> IsSpace(s[n - 1]))
  {
    hide Kept;
    if n > 0 {
      KeptGuards(s, n - 1);
      KeptStep(s, n);
      assert '#' in s[..n] <==> '#' in s[..n - 1] || s[n - 1] == '#';
    } else {
      NothingKept(s);
    }
  }

  lemma NothingKept(s: string)
    ensures Kept(s, 0) == "" && s[..0] == ""
  {
  }

  /** Cleaning a line keeps every character that is not white space, in order. */
  lemma {:induction false} SqueezeKeepsVisible(s: string, n: nat)
    requires n <= |s|
    ensures Visible(Kept(s, n)) == Visible(s[..n])
  {
    hide Kept;
    if n > 0 {
      SqueezeKeepsVisible(s, n - 1);
      KeptStep(s, n);
      assert Visible(s[..n - 1]) + "" == Visible(s[..n - 1]);
    } else {
      NothingKept(s);
    }
  }

  lemma {:induction false} ProtectedPrefix(a: string, b: string, n: nat)
    requires n <= |a|
    ensures ProtectedUpTo(a + b, n) == ProtectedUpTo(a, n)
  {
    if n > 0 {
      ProtectedPrefix(a, b, n - 1);
      assert (a + b)[..n - 1] == a[..n - 1];
    }
  }

  lemma ProtectedSnoc(r: string, ch: char)
    ensures Protected(r + [ch]) == Protected(r) + if Guarded(r, |r|) then [ch] else ""
  {
    ProtectedPrefix(r, [ch], |r|);
    assert (r + [ch])[..|r|] == r == r[..|r|];
  }

  lemma {:induction false} KeptProtects(s: string, n: nat)
    requires n <= |s|
    ensures Protected(Kept(s, n)) == ProtectedUpTo(s, n)
  {
    hide Kept, Protected;
    if n > 0 {
      KeptProtects(s, n - 1);
      KeptGuards(s, n - 1);
      KeptStep(s, n);
      var r := Kept(s, n - 1);
      assert r[..|r|] == r;
      if Dropped(s, n - 1) {
        assert ProtectedUpTo(s, n - 1) + "" == ProtectedUpTo(s, n - 1);
      } else {
        ProtectedSnoc(r, s[n - 1]);
      }
    } else {
      NothingKept(s);
      NothingProtected();
    }
  }

  lemma NothingProtected()
    ensures Protected("") == ""
  {
  }

  /** Cleaning a line keeps every character inside quotes and comments, in order. */
  lemma SqueezeKeepsProtected(s: string)
    ensures Protected(Squeezed(s)) == Protected(s)
  {
    KeptProtects(s, |s|);
  }

  lemma NoDoubleSpaceSnoc(r: string, ch: char)
    requires NoDoubleSpace(r)
    requires IsSpace(ch) && r != "" && IsSpace(r[|r| - 1]) ==> Guarded(r, |r|)
    ensures NoDoubleSpace(r + [ch])
  {
    var t := r + [ch];
    forall k | 0 <= k < |t|
      ensures !Dropped(t, k)
    {
      assert t[..k] == r[..k];
      if k < |r| {
        assert !Dropped(r, k);
      }
    }
  }

  lemma {:induction false} KeptHasNoDoubleSpace(s: string, n: nat)
    requires n <= |s|
    ensures NoDoubleSpace(Kept(s, n))
  {
    hide Kept, NoDoubleSpace;
    if n > 0 {
      KeptHasNoDoubleSpace(s, n - 1);
      KeptGuards(s, n - 1);
      KeptStep(s, n);
      NothingKept(s);
      var r := Kept(s, n - 1);
      assert r[..|r|] == r;
      if !Dropped(s, n - 1) {
        NoDoubleSpaceSnoc(r, s[n - 1]);
      }
    } else {
      NothingKept(s);
      NothingDoubled();
    }
  }

  lemma NothingDoubled()
    ensures NoDoubleSpace("")
  {
  }

  /** A cleaned line has no double space outside quotes and comments. */
  lemma SqueezeLeavesNoDoubleSpace(s: string)
    ensures NoDoubleSpace(Squeezed(s))
  {
    KeptHasNoDoubleSpace(s, |s|);
  }

  lemma {:induction false} NothingDropped(s: string, n: nat)
    requires n <= |s| && NoDoubleSpace(s)
    ensures Kept(s, n) == s[..n]
  {
    if n > 0 {
      NothingDropped(s, n - 1);
    }
  }

  /** Cleaning changes exactly the lines that have a double space outside quotes and comments. */
  lemma SqueezeFixedPoint(s: string)
    ensures Squeezed(s) == s <==> NoDoubleSpace(s)
    ensures Squeezed(Squeezed(s)) == Squeezed(s)
  {
    SqueezeLeavesNoDoubleSpace(s);
    if NoDoubleSpace(s) {
      NothingDropped(s, |s|);
      assert s[..|s|] == s;
    }
    NothingDropped(Squeezed(s), |Squeezed(s)|);
    assert Squeezed(s)[..|Squeezed(s)|] == Squeezed(s);
  }

  // ---- the indent -----------------------------------------------------------------------------

  /** The letters a line starts with.  A line that starts with white space has none. */
  function Ident(line: string, c: Classes): string {
    if line != "" && c.alpha(line[0]) then [line[0]] + Ident(line[1..], c) else ""
  }

  method FirstIdent(line: string, c: Classes) returns (ident: string)
    ensures ident == Ident(line, c)
  {
    ident := "";
    for k := 0 to |line|
      invariant ident + Ident(line[k..], c) == Ident(line, c)
    {
      var ch := line[k];
      if c.alpha(ch) {
        assert line[k..][1..] == line[k + 1..];
        ident := ident + [ch];
      } else {
        break;
      }
    }
  }

  /** Parentheses opened less parentheses closed before the first comment sign. */
  function Unclosed(s: string): int {
    if s == "" || s[0] == '#' then 0
    else Unclosed(s[1..]) + if s[0] == '(' then 1 else if s[0] == ')' then -1 else 0
  }

  method CountParens(stripped: string, before: int) returns (paren: int)
    ensures paren == before + Unclosed(stripped)
  {
    paren := before;
    for k := 0 to |stripped|
      invariant paren + Unclosed(stripped[k..]) == before + Unclosed(stripped)
    {
      var ch := stripped[k];
      assert stripped[k..][1..] == stripped[k + 1..];
      if ch == '#' {
        break;
      }
      if ch == '(' {
        paren := paren + 1;
      } else if ch == ')' {
        paren := paren - 1;
      }
    }
  }

  /** What is open before a line: blocks, parentheses, and an upper-case argument. */
  datatype Open = Open(block: int, paren: int, arg: int)

  predicate Outdented(ident: string) { ident in BLOCK_MIDS || ident in BLOCK_ENDS }

  function BlockChange(ident: string): int {
    if ident in BLOCK_MIDS then 0 else if ident in BLOCK_ENDS then -1 else if ident in BLOCK_STARTS then 1 else 0
  }

  function DepthOf(o: Open, ident: string, c: Classes): int {
    var continues := o.paren > 0 && !c.upper(ident) && o.arg == 1;
    o.block + o.paren - (if Outdented(ident) then 1 else 0) + if continues then 1 else 0
  }

  function PastOf(o: Open, ident: string, change: int, c: Classes): Open {
    var arg := if change < 0 then 0 else if o.paren > 0 && c.upper(ident) then 1 else o.arg;
    Open(o.block + BlockChange(ident), o.paren + change, arg)
  }

  function Depth(o: Open, line: string, c: Classes): int { DepthOf(o, Ident(line, c), c) }

  function Past(o: Open, line: string, c: Classes): Open { PastOf(o, Ident(line, c), Unclosed(Strip(line)), c) }

  predicate Blank(line: string) { Strip(line) == "" }

  /** What is open after these lines; blank lines change nothing. */
  function After(lines: seq<string>, c: Classes): Open {
    if |lines| == 0 then Open(0, 0, 0)
    else
      var o := After(lines[..|lines| - 1], c);
      if Blank(lines[|lines| - 1]) then o else Past(o, lines[|lines| - 1], c)
  }

  /** Python's " " * depth * indent: nothing for a negative factor. */
  function Spaces(depth: int, indent: int): (r: string)
    ensures forall k | 0 <= k < |r| :: r[k] == ' '
    ensures |r| == if depth > 0 && indent > 0 then depth * indent else 0
  {
    if depth > 0 && indent > 0 then
      assert depth * indent >= 0;
      seq(depth * indent, k => ' ')
    else ""
  }

  // ---- the whole file -------------------------------------------------------------------------

  /** Python's split at newlines: never empty. */
  function Split(text: string): (r: seq<string>)
    ensures r != []
  {
    Lines(text) + [Rest(text)]
  }

  function Cleaned(line: string, o: Open, indent: int, c: Classes): string {
    Spaces(Depth(o, line, c), indent) + Squeezed(Strip(line))
  }

  /** The output lines: one per line with content, one per run of blank lines. */
  function CleanLines(lines: seq<string>, indent: int, c: Classes): seq<string> {
    if |lines| == 0 then []
    else
      var k := |lines| - 1;
      CleanLines(lines[..k], indent, c)
      + if !Blank(lines[k]) then [Cleaned(lines[k], After(lines[..k], c), indent, c)]
        else if k == 0 || !Blank(lines[k - 1]) then [""]
        else []
  }

  /** The whole of cleanup_cmake. */
  function Cleanup(text: string, indent: int, c: Classes): string { Unlines(CleanLines(Split(text), indent, c)) }

  lemma NoOutput(lines: seq<string>, indent: int, c: Classes)
    ensures Unlines(CleanLines(lines[..0], indent, c)) == "" && After(lines[..0], c) == Open(0, 0, 0)
  {
  }

  /** What one more line adds to the output and to what is open. */
  lemma OneMoreLine(lines: seq<string>, k: nat, indent: int, c: Classes)
    requires k < |lines|
    ensures !Blank(lines[k]) ==>
              Unlines(CleanLines(lines[..k + 1], indent, c))
              == Unlines(CleanLines(lines[..k], indent, c)) + Cleaned(lines[k], After(lines[..k], c), indent, c) + "\n"
              && After(lines[..k + 1], c) == Past(After(lines[..k], c), lines[k], c)
    ensures Blank(lines[k]) ==>
              Unlines(CleanLines(lines[..k + 1], indent, c))
              == Unlines(CleanLines(lines[..k], indent, c)) + (if k == 0 || !Blank(lines[k - 1]) then "\n" else "")
              && After(lines[..k + 1], c) == After(lines[..k], c)
  {
    hide Unlines, Blank, Cleaned, Past;
    assert lines[..k + 1][..k] == lines[..k];
    var before := CleanLines(lines[..k], indent, c);
    UnlinesSnoc(before, "");
    assert Unlines(before) + "" + "\n" == Unlines(before) + "\n";
    UnlinesSnoc(before, Cleaned(lines[k], After(lines[..k], c), indent, c));
    assert before + [] == before && Unlines(before) + "" == Unlines(before);
  }

  /** How deep a line with content stands, and what is open after it. */
  method Place(line: string, block: int, paren: int, arg: int, c: Classes)
    returns (depth: int, blockDepth: int, parenDepth: int, argDepth: int)
    ensures depth == Depth(Open(block, paren, arg), line, c)
    ensures Open(blockDepth, parenDepth, argDepth) == Past(Open(block, paren, arg), line, c)
  {
    hide Strip, Unclosed, Ident;
    blockDepth, parenDepth, argDepth := block, paren, arg;
    var ident := FirstIdent(line, c);
    depth := blockDepth + parenDepth;
    if ident in BLOCK_MIDS {
      depth := depth - 1;
    } else if ident in BLOCK_ENDS {
      depth := depth - 1;
      blockDepth := blockDepth - 1;
    } else if ident in BLOCK_STARTS {
      blockDepth := blockDepth + 1;
    }
    if parenDepth > 0 && c.upper(ident) {
      argDepth := 1;
    } else if parenDepth > 0 && argDepth == 1 {
      depth := depth + 1;
    }
    var before := parenDepth;
    parenDepth := CountParens(Strip(line), parenDepth);
    if before > parenDepth {
      argDepth := 0;
    }
  }

  method CleanupCmake(text: string, indent: int, c: Classes) returns (out: string)
    ensures out == Cleanup(text, indent, c)
    ensures Visible(out) == Visible(text)
    ensures Rest(out) == "" && forall k | 0 < k < |Lines(out)| :: !Blank(Lines(out)[k - 1]) || !Blank(Lines(out)[k])
  {
    hide Strip, Squeezed, Depth, Past, Unlines, Split, CleanLines, After, Lines, Rest, Visible;
    var blockDepth, parenDepth, argDepth, emptyLines := 0, 0, 0, 0;
    out := "";
    var lines := Split(text);
    NoOutput(lines, indent, c);
    for k := 0 to |lines|
      invariant out == Unlines(CleanLines(lines[..k], indent, c))
      invariant Open(blockDepth, parenDepth, argDepth) == After(lines[..k], c)
      invariant 0 <= emptyLines && (emptyLines == 0 <==> k == 0 || !Blank(lines[k - 1]))
      invariant k > 0 ==> out != "" && out[|out| - 1] == '\n'
    {
      var line := lines[k];
      var stripped := Strip(line);
      OneMoreLine(lines, k, indent, c);
      if |stripped| == 0 {
        if emptyLines == 0 {
          out := out + "\n";
        }
        emptyLines := emptyLines + 1;
        continue;
      }
      emptyLines := 0;
      var depth, block, paren, arg := Place(line, blockDepth, parenDepth, argDepth, c);
      blockDepth, parenDepth, argDepth := block, paren, arg;
      var start := out;
      out := out + Spaces(depth, indent);
      var body := Squeeze(stripped);
      out := out + body;
      out := out + "\n";
      assert out == start + (Spaces(depth, indent) + body) + "\n";
    }
    assert lines[..|lines|] == lines;
    if |out| == 0 || out[|out| - 1] != '\n' {
      out := out + "\n";
    }
    CleanupKeepsVisible(text, indent, c);
    BlankLinesStandAlone(text, indent, c);
  }

  // ---- what cleaning a file keeps -------------------------------------------------------------

  lemma {:induction false} VisibleConcat(a: string, b: string)
    ensures Visible(a + b) == Visible(a) + Visible(b)
  {
    hide IsSpace;
    if b == "" {
      assert a + b == a;
    } else {
      VisibleConcat(a, b[..|b| - 1]);
      assert (a + b)[..|a + b| - 1] == a + b[..|b| - 1];
    }
  }

  lemma {:induction false} SpaceIsInvisible(s: string)
    requires forall k | 0 <= k < |s| :: IsSpace(s[k])
    ensures Visible(s) == ""
  {
    if s != "" {
      SpaceIsInvisible(s[..|s| - 1]);
    }
  }

  lemma StripKeepsVisible(s: string)
    ensures Visible(Strip(s)) == Visible(s)
  {
    hide StripLeft, StripRight, Visible;
    var l := StripLeft(s);
    var r := StripRight(l);
    VisibleConcat(s[..|s| - |l|], l);
    SpaceIsInvisible(s[..|s| - |l|]);
    VisibleConcat(r, l[|r|..]);
    SpaceIsInvisible(l[|r|..]);
    assert s == s[..|s| - |l|] + l && l == r + l[|r|..];
  }

  lemma {:induction false} FirstVisible(s: string)
    requires s != "" && !IsSpace(s[0])
    ensures Visible(s) != ""
  {
    if |s| > 1 {
      FirstVisible(s[..|s| - 1]);
    }
  }

  lemma BlankIffInvisible(line: string)
    ensures Blank(line) <==> Visible(line) == ""
  {
    StripKeepsVisible(line);
    if !Blank(line) {
      StripStart(line);
      FirstVisible(Strip(line));
    }
  }

  lemma StripStart(line: string)
    requires !Blank(line)
    ensures !IsSpace(Strip(line)[0])
  {
    var l := StripLeft(line);
    assert StripRight(l)[0] == l[0];
  }

  /** An output line is its indent and a cleaned text that starts visibly, has no double space outside quotes and
      comments, and keeps every visible character, and every character inside quotes and comments of the stripped
      line. */
  lemma CleanedLine(line: string, o: Open, indent: int, c: Classes)
    requires !Blank(line)
    ensures Cleaned(line, o, indent, c) == Spaces(Depth(o, line, c), indent) + Squeezed(Strip(line))
    ensures Squeezed(Strip(line)) != "" && !IsSpace(Squeezed(Strip(line))[0])
    ensures NoDoubleSpace(Squeezed(Strip(line))) && Protected(Squeezed(Strip(line))) == Protected(Strip(line))
    ensures Visible(Cleaned(line, o, indent, c)) == Visible(line) != ""
  {
    hide Strip, Squeezed, NoDoubleSpace, Protected, Visible, Depth;
    var t := Strip(line);
    StripStart(line);
    SqueezeStart(t);
    SqueezeLeavesNoDoubleSpace(t);
    SqueezeKeepsProtected(t);
    VisibleOfCleaned(line, o, indent, c);
    BlankIffInvisible(line);
  }

  lemma VisibleOfCleaned(line: string, o: Open, indent: int, c: Classes)
    ensures Visible(Cleaned(line, o, indent, c)) == Visible(line)
  {
    hide Strip, Kept, Visible, Depth;
    var t := Strip(line);
    var spaces := Spaces(Depth(o, line, c), indent);
    SqueezeKeepsVisible(t, |t|);
    assert t[..|t|] == t;
    VisibleConcat(spaces, Squeezed(t));
    SpaceIsInvisible(spaces);
    StripKeepsVisible(line);
  }

  lemma {:induction false} KeptStart(s: string, n: nat)
    requires 0 < n <= |s|
    ensures Kept(s, n) != "" && Kept(s, n)[0] == s[0]
  {
    if n > 1 {
      KeptStart(s, n - 1);
    }
  }

  lemma SqueezeStart(s: string)
    requires s != ""
    ensures Squeezed(s) != "" && Squeezed(s)[0] == s[0]
  {
    KeptStart(s, |s|);
  }

  lemma {:induction false} LinesKeepVisible(lines: seq<string>, k: nat, indent: int, c: Classes)
    requires k <= |lines|
    ensures Visible(Unlines(CleanLines(lines[..k], indent, c))) == Visible(Unlines(lines[..k]))
  {
    hide Visible, CleanLines, Unlines, Blank, Cleaned;
    if k > 0 {
      LinesKeepVisible(lines, k - 1, indent, c);
      OneMoreLine(lines, k - 1, indent, c);
      assert lines[..k] == lines[..k - 1] + [lines[k - 1]];
      var line := lines[k - 1];
      UnlinesSnoc(lines[..k - 1], line);
      VisibleSnoc(Unlines(lines[..k - 1]), line);
      var before := Unlines(CleanLines(lines[..k - 1], indent, c));
      if Blank(line) {
        BlankIffInvisible(line);
        VisibleSnoc(before, "");
        NothingVisible();
        assert before + "" + "\n" == before + "\n" && before + "" == before;
      } else {
        var o := After(lines[..k - 1], c);
        VisibleSnoc(before, Cleaned(line, o, indent, c));
        VisibleOfCleaned(line, o, indent, c);
      }
    } else {
      NoOutput(lines, indent, c);
      assert lines[..0] == [];
      NoLines();
    }
  }

  lemma NothingVisible()
    ensures Visible("") == ""
  {
  }

  lemma VisibleSnoc(a: string, line: string)
    ensures Visible(a + line + "\n") == Visible(a) + Visible(line)
  {
    hide Visible;
    VisibleConcat(a + line, "\n");
    VisibleConcat(a, line);
    SpaceIsInvisible("\n");
    assert Visible(a) + Visible(line) + "" == Visible(a) + Visible(line);
  }

  /** Re-indenting a file keeps every character that is not white space, in order. */
  lemma CleanupKeepsVisible(text: string, indent: int, c: Classes)
    ensures Visible(Unlines(CleanLines(Split(text), indent, c))) == Visible(text)
  {
    hide Visible, CleanLines, Unlines, Lines, Rest;
    var lines := Split(text);
    LinesKeepVisible(lines, |lines|, indent, c);
    assert lines[..|lines|] == lines;
    UnlinesSnoc(Lines(text), Rest(text));
    LinesAndRest(text);
    VisibleConcat(text, "\n");
    SpaceIsInvisible("\n");
    assert Visible(text) + "" == Visible(text);
  }

  // ---- the output, line by line ---------------------------------------------------------------

  lemma {:induction false} SqueezedSubset(s: string, n: nat, ch: char)
    requires n <= |s| && ch in Kept(s, n)
    ensures ch in s
  {
    if n > 0 && ch in Kept(s, n - 1) {
      SqueezedSubset(s, n - 1, ch);
    }
  }

  lemma CleanedHasNoNewline(line: string, o: Open, indent: int, c: Classes)
    requires '\n' !in line
    ensures '\n' !in Cleaned(line, o, indent, c)
  {
    hide Kept, Depth;
    var t := Strip(line);
    assert t == StripRight(StripLeft(line));
    assert forall ch | ch in t :: ch in line;
    if '\n' in Squeezed(t) {
      SqueezedSubset(t, |t|, '\n');
    }
  }

  /** The output lines hold no newline, no two in a row are blank, and the last is blank just when the last input
      line is. */
  lemma {:induction false} OutputLines(lines: seq<string>, indent: int, c: Classes)
    requires forall k | 0 <= k < |lines| :: '\n' !in lines[k]
    ensures forall k | 0 <= k < |CleanLines(lines, indent, c)| :: '\n' !in CleanLines(lines, indent, c)[k]
    ensures forall k | 0 < k < |CleanLines(lines, indent, c)| ::
              !Blank(CleanLines(lines, indent, c)[k - 1]) || !Blank(CleanLines(lines, indent, c)[k])
    ensures |lines| > 0 ==> CleanLines(lines, indent, c) != []
    ensures |lines| > 0 ==>
              (Blank(CleanLines(lines, indent, c)[|CleanLines(lines, indent, c)| - 1]) <==> Blank(lines[|lines| - 1]))
  {
    hide Blank, Cleaned, After;
    if |lines| > 0 {
      var k := |lines| - 1;
      OutputLines(lines[..k], indent, c);
      if Blank(lines[k]) {
        EmptyIsBlank();
      } else {
        CleanedHasNoNewline(lines[k], After(lines[..k], c), indent, c);
        CleanedLine(lines[k], After(lines[..k], c), indent, c);
        BlankIffInvisible(Cleaned(lines[k], After(lines[..k], c), indent, c));
      }
    }
  }

  lemma EmptyIsBlank()
    ensures Blank("")
  {
  }

  lemma SplitLines(text: string)
    ensures forall k | 0 <= k < |Split(text)| :: '\n' !in Split(text)[k]
  {
    LinesHaveNoNewline(text);
  }

  /** Read back, the output is its lines and nothing after them: it ends with a newline, and no two of its lines in
      a row are blank. */
  lemma BlankLinesStandAlone(text: string, indent: int, c: Classes)
    ensures Lines(Unlines(CleanLines(Split(text), indent, c))) == CleanLines(Split(text), indent, c) != []
    ensures Rest(Unlines(CleanLines(Split(text), indent, c))) == ""
    ensures forall k | 0 < k < |CleanLines(Split(text), indent, c)| ::
              !Blank(CleanLines(Split(text), indent, c)[k - 1]) || !Blank(CleanLines(Split(text), indent, c)[k])
  {
    hide Blank, Lines, Rest, Unlines, CleanLines;
    SplitLines(text);
    OutputLines(Split(text), indent, c);
    LinesOfUnlines(CleanLines(Split(text), indent, c));
  }
}
