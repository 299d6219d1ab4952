/** Reading strings that may span lines, and what cleaning one line does to them. */
module CmakeScanner {
  import opened Text
  import opened CmakeCleanup
  import opened CmakeProtection

  // ---- reading a text with strings that span lines ------------------------------------------------

  datatype State = Code | Quoted | Comment

  /** A quote opens or closes a string outside comments, a comment sign outside strings starts a comment, and a newline
      ends it. */
  function Next(st: State, ch: char): State {
    match st
    case Code => if ch == '"' then Quoted else if ch == '#' then Comment else Code
    case Quoted => if ch == '"' then Code else Quoted
    case Comment => if ch == '\n' then Code else Comment
  }

  function Run(st: State, s: string): State {
    if s == "" then st else Next(Run(st, s[..|s| - 1]), s[|s| - 1])
  }

  /** The characters inside strings and comments, with the quote or newline that ends each. */
  function Marked(st: State, s: string): string {
    if s == "" then ""
    else Marked(st, s[..|s| - 1]) + if Run(st, s[..|s| - 1]) == Code then "" else [s[|s| - 1]]
  }

  lemma RunSnoc(st: State, s: string, ch: char)
    ensures Run(st, s + [ch]) == Next(Run(st, s), ch)
    ensures Marked(st, s + [ch]) == Marked(st, s) + if Run(st, s) == Code then "" else [ch]
  {
    assert (s + [ch])[..|s|] == s;
  }

  lemma {:induction false} RunConcat(st: State, a: string, b: string)
    ensures Run(st, a + b) == Run(Run(st, a), b)
    ensures Marked(st, a + b) == Marked(st, a) + Marked(Run(st, a), b)
  {
    hide Run, Marked;
    if b == "" {
      assert a + b == a && Marked(st, a) + "" == Marked(st, a);
      NothingRuns(Run(st, a));
    } else {
      var init, ch := b[..|b| - 1], b[|b| - 1];
      RunConcat(st, a, init);
      assert a + b == (a + init) + [ch] && b == init + [ch];
      RunSnoc(st, a + init, ch);
      RunSnoc(Run(st, a), init, ch);
    }
  }

  // ---- white space changes no state ---------------------------------------------------------------

  /** White space within a line. */
  ghost predicate Gap(s: string) { AllSpace(s) && '\n' !in s }

  lemma {:induction false} RunGap(st: State, s: string)
    requires Gap(s)
    ensures Run(st, s) == st && Marked(st, s) == if st == Code then "" else s
  {
    hide Run, Marked, IsSpace;
    if s == "" {
      NothingRuns(st);
    } else {
      var init, ch := s[..|s| - 1], s[|s| - 1];
      assert s == init + [ch];
      RunGap(st, init);
      RunSnoc(st, init, ch);
      SpaceKeepsState(st, ch);
    }
  }

  lemma {:induction false} RunVisible(st: State, s: string)
    requires '\n' !in s
    ensures Run(st, Visible(s)) == Run(st, s) && Visible(Marked(st, s)) == Marked(st, Visible(s))
  {
    hide Run, Marked;
    if s == "" {
      NothingRuns(st);
    } else {
      var init, ch := s[..|s| - 1], s[|s| - 1];
      assert s == init + [ch];
      RunVisible(st, init);
      RunSnoc(st, init, ch);
      RunSnoc(st, Visible(init), ch);
      VisibleOne(Marked(st, init), ch);
      if IsSpace(ch) {
        SpaceKeepsState(Run(st, init), ch);
        assert Visible(init) + "" == Visible(init);
      }
      assert Marked(st, init) + "" == Marked(st, init);
      assert Marked(st, Visible(init)) + "" == Marked(st, Visible(init));
    }
  }

  lemma NothingRuns(st: State)
    ensures Run(st, "") == st && Marked(st, "") == "" && Visible("") == ""
  {
  }

  lemma VisibleOne(s: string, ch: char)
    ensures Visible(s + [ch]) == Visible(s) + if IsSpace(ch) then "" else [ch]
  {
    assert (s + [ch])[..|s|] == s;
  }

  lemma SpaceKeepsState(st: State, ch: char)
    requires IsSpace(ch) && ch != '\n'
    ensures Next(st, ch) == st
  {
  }

  // ---- what separates strings ---------------------------------------------------------------------

  predicate Separator(ch: char) { ch == '\n' || ch == '"' }

  function Separators(s: string): nat {
    if s == "" then 0 else Separators(s[..|s| - 1]) + if Separator(s[|s| - 1]) then 1 else 0
  }

  lemma {:induction false} SeparatorsConcat(a: string, b: string)
    ensures Separators(a + b) == Separators(a) + Separators(b)
  {
    if b == "" {
      assert a + b == a;
    } else {
      SeparatorsConcat(a, b[..|b| - 1]);
      assert (a + b)[..|a + b| - 1] == a + b[..|b| - 1];
    }
  }

  lemma {:induction false} SeparatorsVisible(s: string)
    requires '\n' !in s
    ensures Separators(Visible(s)) == Separators(s)
  {
    hide Separators;
    if s != "" {
      var init, ch := s[..|s| - 1], s[|s| - 1];
      SeparatorsVisible(init);
      SeparatorsSnoc(init, ch);
      SeparatorsSnoc(Visible(init), ch);
      assert s == init + [ch];
      assert Visible(init) + "" == Visible(init);
      QuoteIsVisible(ch);
    }
  }

  lemma SeparatorsSnoc(s: string, ch: char)
    ensures Separators(s + [ch]) == Separators(s) + if Separator(ch) then 1 else 0
  {
    assert (s + [ch])[..|s|] == s;
  }

  lemma QuoteIsVisible(ch: char)
    ensures IsSpace(ch) && ch != '\n' ==> !Separator(ch)
  {
  }

  predicate Ended(s: string) { s == "" || Separator(s[|s| - 1]) }

  lemma {:induction false} CodeIsEnded(st: State, s: string)
    requires Run(st, s) == Code
    ensures Ended(Marked(st, s))
  {
    if s != "" && Run(st, s[..|s| - 1]) == Code {
      CodeIsEnded(st, s[..|s| - 1]);
      assert Marked(st, s[..|s| - 1]) + "" == Marked(st, s[..|s| - 1]);
    }
  }

  /** What whole lines mark ends with a separator. */
  lemma LinesAreEnded(st: State, s: string)
    ensures Ended(Marked(st, s + "\n"))
  {
    RunSnoc(st, s, '\n');
    if Run(st, s) == Code {
      CodeIsEnded(st, s);
      assert Marked(st, s) + "" == Marked(st, s);
    }
  }

  /** Texts that end with a separator and hold as many of them are cut apart in one way. */
  lemma CutInOneWay(a: string, b: string, x: string, y: string)
    requires a + b == x + y && Ended(a) && Ended(x) && Separators(a) == Separators(x)
    ensures a == x && b == y
  {
    if |a| < |x| {
      ShorterHasFewer(a, x, b, y);
    } else if |x| < |a| {
      ShorterHasFewer(x, a, y, b);
    }
    assert a == (a + b)[..|a|] && x == (x + y)[..|x|];
    assert b == (a + b)[|a|..] && y == (x + y)[|x|..];
  }

  lemma ShorterHasFewer(a: string, x: string, b: string, y: string)
    requires a + b == x + y && |a| < |x| && Ended(x)
    ensures Separators(a) < Separators(x)
  {
    var z := x[|a|..|x| - 1];
    assert a == (a + b)[..|a|] == (x + y)[..|a|] == x[..|a|];
    assert x == a + z + [x[|x| - 1]];
    SeparatorsConcat(a, z);
    SeparatorsSnoc(a + z, x[|x| - 1]);
  }

  // ---- one line -----------------------------------------------------------------------------------

  function Lead(line: string): string { line[..|line| - |StripLeft(line)|] }

  lemma LineParts(line: string)
    requires '\n' !in line
    ensures line == Lead(line) + Strip(line) + Tail(line) && Gap(Lead(line)) && Gap(Tail(line)) && '\n' !in Strip(line)
  {
    hide StripLeft, StripRight, IsSpace;
    var l := StripLeft(line);
    assert l == Strip(line) + Tail(line) && line == Lead(line) + l;
    PartsHaveNoNewline(Lead(line), Strip(line), Tail(line), line);
  }

  lemma PartsHaveNoNewline(a: string, b: string, c: string, s: string)
    requires s == a + (b + c) && '\n' !in s
    ensures '\n' !in a && '\n' !in b && '\n' !in c && s == a + b + c
  {
    assert forall k | 0 <= k < |a| :: s[k] == a[k];
    assert forall k | 0 <= k < |b| :: s[|a| + k] == b[k];
    assert forall k | 0 <= k < |c| :: s[|a| + |b| + k] == c[k];
  }

  /** In a string the white space in front is the indent, no blank is dropped inside one, and nothing trails while a
      string or comment is open. */
  predicate LineIntact(line: string, st: State, spaces: string) {
    && (st == Quoted ==> Lead(line) == spaces)
    && NothingLost(Strip(line), |Strip(line)|, st)
    && (Run(st, line) != Code ==> Tail(line) == "")
  }

  predicate NothingLost(t: string, n: nat, st: State)
    requires n <= |t|
  {
    forall k | 0 <= k < n :: Dropped(t, k) ==> Run(st, t[..k]) == Code
  }

  /** Squeezing keeps the state, and what it marks unless a blank inside a string is dropped. */
  lemma {:induction false} KeptMarks(t: string, n: nat, st: State)
    requires n <= |t| && '\n' !in t
    ensures Run(st, Kept(t, n)) == Run(st, t[..n])
    ensures |Marked(st, Kept(t, n))| <= |Marked(st, t[..n])|
    ensures NothingLost(t, n, st) ==> Marked(st, Kept(t, n)) == Marked(st, t[..n])
    ensures !NothingLost(t, n, st) ==> |Marked(st, Kept(t, n))| < |Marked(st, t[..n])|
  {
    hide Kept, Run, Marked, Dropped, NothingLost;
    if n == 0 {
      NothingKept(t);
      NothingLostYet(t, st);
    } else {
      var init, ch := t[..n - 1], t[n - 1];
      KeptMarks(t, n - 1, st);
      KeptStep(t, n);
      assert t[..n] == init + [ch];
      RunSnoc(st, init, ch);
      RunSnoc(st, Kept(t, n - 1), ch);
      NothingLostSnoc(t, n, st);
      if Dropped(t, n - 1) {
        DroppedIsSpace(t, n - 1);
        SpaceKeepsState(Run(st, init), ch);
        assert Marked(st, init) + "" == Marked(st, init);
      }
    }
  }

  lemma NothingLostYet(t: string, st: State)
    ensures NothingLost(t, 0, st)
  {
  }

  lemma NothingLostSnoc(t: string, n: nat, st: State)
    requires 0 < n <= |t|
    ensures NothingLost(t, n, st) <==>
              NothingLost(t, n - 1, st) && (Dropped(t, n - 1) ==> Run(st, t[..n - 1]) == Code)
  {
    hide Dropped, Run;
  }

  lemma DroppedIsSpace(t: string, k: nat)
    requires k < |t| && Dropped(t, k)
    ensures IsSpace(t[k])
  {
  }

  lemma LeadInOneWay(lead: string, a: string, spaces: string, b: string)
    requires AllSpace(lead) && AllSpace(spaces) && a != "" && b != "" && !IsSpace(a[0]) && !IsSpace(b[0])
    ensures lead + a == spaces + b <==> lead == spaces && a == b
  {
    hide IsSpace;
    if lead + a == spaces + b {
      LeadAtLeast(lead, a, spaces, b);
      LeadAtLeast(spaces, b, lead, a);
      assert lead == (lead + a)[..|lead|] && spaces == (spaces + b)[..|spaces|];
      assert a == (lead + a)[|lead|..] && b == (spaces + b)[|spaces|..];
    }
  }

  lemma LeadAtLeast(lead: string, a: string, spaces: string, b: string)
    requires lead + a == spaces + b && AllSpace(spaces) && a != "" && !IsSpace(a[0])
    ensures |spaces| <= |lead|
  {
    hide IsSpace;
    assert (lead + a)[|lead|] == a[0];
    assert forall k | 0 <= k < |spaces| :: (spaces + b)[k] == spaces[k];
  }

  /** What a line marks, part by part. */
  lemma MarkedParts(lead: string, t: string, tail: string, st: State)
    requires Gap(lead) && Gap(tail) && '\n' !in t
    ensures Run(st, lead + t + tail) == Run(st, t)
    ensures Marked(st, lead + t + tail + "\n")
         == (if st == Code then "" else lead) + (Marked(st, t) + if Run(st, t) == Code then "" else tail + "\n")
  {
    hide Run, Marked;
    RunConcat(st, lead + t + tail, "\n");
    RunConcat(st, lead + t, tail);
    RunConcat(st, lead, t);
    RunGap(st, lead);
    RunGap(Run(st, t), tail);
    MarkedNewline(Run(st, t));
    assert (if st == Code then "" else lead) + Marked(st, t) + (if Run(st, t) == Code then "" else tail)
        + (if Run(st, t) == Code then "" else "\n")
        == (if st == Code then "" else lead) + (Marked(st, t) + if Run(st, t) == Code then "" else tail + "\n");
  }

  lemma MarkedNewline(st: State)
    ensures Marked(st, "\n") == if st == Code then "" else "\n"
  {
    assert "\n"[..0] == "";
  }

  lemma {:induction false} QuotedStart(t: string)
    requires t != ""
    ensures Marked(Quoted, t) != "" && Marked(Quoted, t)[0] == t[0]
  {
    if |t| > 1 {
      QuotedStart(t[..|t| - 1]);
    } else {
      assert t[..0] == "";
    }
  }

  /** A line with content marks what its output line marks exactly when it is intact. */
  lemma LineMarks(line: string, st: State, o: Open, indent: int, c: Classes)
    requires !Blank(line) && '\n' !in line && st != Comment
    ensures var spaces := Spaces(Depth(o, line, c), indent);
            Marked(st, Cleaned(line, o, indent, c) + "\n") == Marked(st, line + "\n") <==> LineIntact(line, st, spaces)
  {
    hide Run, Marked, Strip, Squeezed, Depth, Tail, Lead, NothingLost, IsSpace, AllSpace, Gap;
    var spaces, t, tail := Spaces(Depth(o, line, c), indent), Strip(line), Tail(line);
    var r, e := Squeezed(t), Run(st, t);
    LineParts(line);
    IndentIsGap(spaces);
    SqueezeMarks(t, st);
    MarkedParts(Lead(line), t, tail, st);
    EmptyIsGap();
    MarkedParts(spaces, r, "", st);
    assert spaces + r + "" == spaces + r && "" + "\n" == "\n";
    var a := Marked(st, t) + if e == Code then "" else tail + "\n";
    var b := Marked(st, r) + if e == Code then "" else "\n";
    assert b == a <==> NothingLost(t, |t|, st) && (e != Code ==> tail == "") by {
      MarksAgree(Marked(st, t), Marked(st, r), tail, e);
    }
    if st == Quoted {
      StripStart(line);
      SqueezeStart(t);
      QuotedStart(t);
      QuotedStart(r);
      GapIsSpace(Lead(line));
      GapIsSpace(spaces);
      LeadInOneWay(Lead(line), a, spaces, b);
    } else {
      assert "" + a == a && "" + b == b;
    }
  }

  lemma MarksAgree(m: string, n: string, tail: string, e: State)
    requires |n| <= |m|
    ensures n + (if e == Code then "" else "\n") == m + (if e == Code then "" else tail + "\n")
       <==> n == m && (e != Code ==> tail == "")
  {
    if n + (if e == Code then "" else "\n") == m + (if e == Code then "" else tail + "\n") {
      assert |n + (if e == Code then "" else "\n")| == |m + (if e == Code then "" else tail + "\n")|;
      assert |n| == |m| && (e != Code ==> |tail| == 0);
      assert n == (n + (if e == Code then "" else "\n"))[..|n|];
      assert m == (m + (if e == Code then "" else tail + "\n"))[..|n|];
    }
  }

  lemma SqueezeMarks(t: string, st: State)
    requires '\n' !in t
    ensures '\n' !in Squeezed(t) && Run(st, Squeezed(t)) == Run(st, t)
    ensures |Marked(st, Squeezed(t))| <= |Marked(st, t)|
    ensures NothingLost(t, |t|, st) <==> Marked(st, Squeezed(t)) == Marked(st, t)
  {
    hide Run, Marked, NothingLost, Kept;
    KeptMarks(t, |t|, st);
    assert t[..|t|] == t;
    if '\n' in Squeezed(t) {
      SqueezedSubset(t, |t|, '\n');
    }
  }

  lemma IndentIsGap(s: string)
    requires forall k | 0 <= k < |s| :: s[k] == ' '
    ensures Gap(s)
  {
  }

  lemma EmptyIsGap()
    ensures Gap("")
  {
  }

  lemma GapIsSpace(s: string)
    requires Gap(s)
    ensures AllSpace(s)
  {
  }
}
