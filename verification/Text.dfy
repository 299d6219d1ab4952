/** Text as the tools handle it: Python's white space, strip, and splitting at newlines. */
module Text {

  /** The characters for which Python's str.isspace holds. */
  predicate IsSpace(c: char) {
    var n := c as int;
    (0x09 <= n <= 0x0D) || (0x1C <= n <= 0x20) || n == 0x85 || n == 0xA0 || n == 0x1680
    || (0x2000 <= n <= 0x200A) || n == 0x2028 || n == 0x2029 || n == 0x202F || n == 0x205F || n == 0x3000
  }

  /** The twenty-nine of them, one by one. */
  const SPACES := ['\t', '\n', '\U{0B}', '\U{0C}', '\r', '\U{1C}', '\U{1D}', '\U{1E}', '\U{1F}', ' ',
                   '\U{85}', '\U{A0}', '\U{1680}', '\U{2000}', '\U{2001}', '\U{2002}', '\U{2003}', '\U{2004}',
                   '\U{2005}', '\U{2006}', '\U{2007}', '\U{2008}', '\U{2009}', '\U{200A}', '\U{2028}',
                   '\U{2029}', '\U{202F}', '\U{205F}', '\U{3000}']

  lemma SpacesAre(c: char)
    ensures IsSpace(c) <==> c in SPACES
  {
  }

  function StripLeft(s: string): (r: string)
    ensures |r| <= |s| && r == s[|s| - |r|..]
    ensures forall k | 0 <= k < |s| - |r| :: IsSpace(s[k])
    ensures r != "" ==> !IsSpace(r[0])
  {
    if s != "" && IsSpace(s[0]) then StripLeft(s[1..]) else s
  }

  function StripRight(s: string): (r: string)
    ensures |r| <= |s| && r == s[..|r|]
    ensures forall k | |r| <= k < |s| :: IsSpace(s[k])
    ensures r != "" ==> !IsSpace(r[|r| - 1])
  {
    if s != "" && IsSpace(s[|s| - 1]) then StripRight(s[..|s| - 1]) else s
  }

  function Strip(s: string): string { StripRight(StripLeft(s)) }

  lemma StripVisible(s: string)
    requires s != "" && !IsSpace(s[0]) && !IsSpace(s[|s| - 1])
    ensures Strip(s) == s && StripLeft(s) == s
  {
  }

  /** Stripping takes off white space at both ends, and all of it. */
  lemma StripIs(s: string) returns (lead: string, tail: string)
    ensures s == lead + Strip(s) + tail
    ensures forall k | 0 <= k < |lead| :: IsSpace(lead[k])
    ensures forall k | 0 <= k < |tail| :: IsSpace(tail[k])
    ensures Strip(s) != "" ==> !IsSpace(Strip(s)[0]) && !IsSpace(Strip(s)[|Strip(s)| - 1])
  {
    hide IsSpace, StripLeft, StripRight;
    var r := StripLeft(s);
    var t := StripRight(r);
    lead, tail := s[..|s| - |r|], r[|t|..];
    assert s == lead + r;
    assert r == t + tail;
    assert lead + (t + tail) == lead + t + tail;
    assert t != "" ==> t[0] == r[0];
  }

  /** Texts that differ in front of the same end differ. */
  lemma SameFront<T>(a: seq<T>, b: seq<T>, r: seq<T>)
    ensures a + r == b + r <==> a == b
  {
    if a + r == b + r {
      assert |a| == |b|;
      assert a == (a + r)[..|a|] && b == (b + r)[..|b|];
    }
  }

  // ---- newlines -------------------------------------------------------------------------------

  /** The position of the first newline, or the length of the text. */
  function NewlineAt(s: string): (p: nat)
    ensures p <= |s| && (p < |s| ==> s[p] == '\n') && forall k | 0 <= k < p :: s[k] != '\n'
  {
    if s == "" || s[0] == '\n' then 0 else 1 + NewlineAt(s[1..])
  }

  /** The complete lines of a text, without their newlines. */
  function Lines(s: string): seq<string>
    decreases |s|
  {
    var p := NewlineAt(s);
    if p == |s| then [] else [s[..p]] + Lines(s[p + 1..])
  }

  /** What follows the last newline. */
  function Rest(s: string): (r: string)
    ensures '\n' !in r
    decreases |s|
  {
    var p := NewlineAt(s);
    if p == |s| then s else Rest(s[p + 1..])
  }

  /** A text with a newline is its first line and what follows. */
  lemma TakeLine(s: string)
    requires NewlineAt(s) < |s|
    ensures Lines(s) == [s[..NewlineAt(s)]] + Lines(s[NewlineAt(s) + 1..]) && Rest(s) == Rest(s[NewlineAt(s) + 1..])
  {
    hide NewlineAt;
  }

  lemma NoLine(s: string)
    requires NewlineAt(s) == |s|
    ensures Lines(s) == [] && Rest(s) == s
  {
  }

  function Unlines(lines: seq<string>): string {
    if |lines| == 0 then "" else lines[0] + "\n" + Unlines(lines[1..])
  }

  lemma UnlinesCons(line: string, lines: seq<string>)
    ensures Unlines([line] + lines) == line + "\n" + Unlines(lines)
  {
    assert ([line] + lines)[1..] == lines;
  }

  /** Splitting loses nothing: the lines with their newlines, then the rest, are the text. */
  lemma {:induction false} LinesAndRest(s: string)
    ensures Unlines(Lines(s)) + Rest(s) == s
    decreases |s|
  {
    hide Unlines, Lines, Rest, NewlineAt;
    var p := NewlineAt(s);
    if p < |s| {
      var line, tail := s[..p], s[p + 1..];
      TakeLine(s);
      LinesAndRest(tail);
      UnlinesCons(line, Lines(tail));
      Reassociate(line, Unlines(Lines(tail)), Rest(tail));
      assert line + "\n" + tail == s;
    } else {
      NoLine(s);
      NoLines();
    }
  }

  lemma Reassociate(line: string, a: string, b: string)
    ensures line + "\n" + a + b == line + "\n" + (a + b)
  {
  }

  lemma {:induction false} LinesHaveNoNewline(s: string)
    ensures forall k | 0 <= k < |Lines(s)| :: '\n' !in Lines(s)[k]
    decreases |s|
  {
    if NewlineAt(s) < |s| {
      LinesHaveNoNewline(s[NewlineAt(s) + 1..]);
    }
  }

  lemma {:induction false} UnlinesSnoc(lines: seq<string>, last: string)
    ensures Unlines(lines + [last]) == Unlines(lines) + last + "\n"
  {
    if |lines| > 0 {
      UnlinesSnoc(lines[1..], last);
      assert (lines + [last])[1..] == lines[1..] + [last];
    }
  }

  lemma OneLine(line: string, tail: string)
    requires '\n' !in line
    ensures Lines(line + "\n" + tail) == [line] + Lines(tail) && Rest(line + "\n" + tail) == Rest(tail)
  {
    var s := line + "\n" + tail;
    assert s[|line|] == '\n' && forall k | 0 <= k < |line| :: s[k] == line[k];
    assert NewlineAt(s) == |line|;
    assert s[..|line|] == line && s[|line| + 1..] == tail;
  }

  /** Text written line by line is read back as the same lines, with nothing left over. */
  lemma {:induction false} LinesOfUnlines(lines: seq<string>)
    requires forall k | 0 <= k < |lines| :: '\n' !in lines[k]
    ensures Lines(Unlines(lines)) == lines && Rest(Unlines(lines)) == ""
  {
    if |lines| > 0 {
      LinesOfUnlines(lines[1..]);
      OneLine(lines[0], Unlines(lines[1..]));
    }
  }

  lemma NoLines()
    ensures Unlines([]) == ""
  {
  }

  lemma NewlineInPrefix(a: string, b: string)
    requires NewlineAt(a) < |a|
    ensures NewlineAt(a + b) == NewlineAt(a)
  {
    var p, q := NewlineAt(a), NewlineAt(a + b);
    assert (a + b)[p] == '\n';
    if q < p {
      assert (a + b)[q] == a[q];
    }
  }

  /** Reading more text continues from the rest of what was read before. */
  lemma {:induction false} SplitContinues(a: string, b: string)
    ensures Lines(a + b) == Lines(a) + Lines(Rest(a) + b) && Rest(a + b) == Rest(Rest(a) + b)
    decreases |a|
  {
    hide Lines, Rest, NewlineAt;
    var p := NewlineAt(a);
    if p < |a| {
      NewlineInPrefix(a, b);
      assert (a + b)[p + 1..] == a[p + 1..] + b && (a + b)[..p] == a[..p];
      TakeLine(a);
      TakeLine(a + b);
      SplitContinues(a[p + 1..], b);
    } else {
      NoLine(a);
      assert Lines(a + b) == [] + Lines(a + b);
    }
  }
}
