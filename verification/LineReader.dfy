/** Reassembling lines from a stream that arrives in pieces: the collector of the benchmark
    runner and the message reader of the profile viewer. */
module LineReader {
  import opened Text

  /** What a reader does with one stripped, non-blank line: keep a message, skip it, or fail on it. */
  datatype Outcome<M> = Keep(message: M) | Skip | Crash

  /** One attempt to read: text, the peer closing, a time-out, or an error. */
  datatype Read = Data(text: string) | Closed | Timeout | Failed

  /** The messages of a list of lines, in order, blank lines dropped. */
  function Messages<M>(handle: string -> Outcome<M>, lines: seq<string>): seq<M> {
    if |lines| == 0 then [] else One(handle, lines[0]) + Messages(handle, lines[1..])
  }

  function One<M>(handle: string -> Outcome<M>, line: string): seq<M> {
    var s := Strip(line);
    if s == "" || !handle(s).Keep? then [] else [handle(s).message]
  }

  lemma {:induction false} MessagesConcat<M>(handle: string -> Outcome<M>, a: seq<string>, b: seq<string>)
    ensures Messages(handle, a + b) == Messages(handle, a) + Messages(handle, b)
    decreases |a|
  {
    hide One;
    if |a| == 0 {
      assert a + b == b;
    } else {
      assert (a + b)[1..] == a[1..] + b;
      MessagesConcat(handle, a[1..], b);
    }
  }

  predicate Crashes<M>(handle: string -> Outcome<M>, line: string) { Strip(line) != "" && handle(Strip(line)).Crash? }

  /** The elements before the first bad one. */
  function Before<T>(bad: T -> bool, xs: seq<T>): (r: seq<T>)
    ensures |r| <= |xs| && r == xs[..|r|]
    ensures |r| < |xs| ==> bad(xs[|r|])
    ensures forall k | 0 <= k < |r| :: !bad(r[k])
  {
    if |xs| == 0 || bad(xs[0]) then [] else [xs[0]] + Before(bad, xs[1..])
  }

  /** The lines up to the first one on which the handler fails. */
  function BeforeCrash<M>(handle: string -> Outcome<M>, lines: seq<string>): (r: seq<string>)
    ensures |r| <= |lines| && r == lines[..|r|]
    ensures |r| < |lines| ==> Crashes(handle, lines[|r|])
    ensures forall k | 0 <= k < |r| :: !Crashes(handle, r[k])
  {
    Before((line: string) => Crashes(handle, line), lines)
  }

  /** The first failing line fixes the result. */
  lemma BeforeCrashIs<M>(handle: string -> Outcome<M>, lines: seq<string>, k: nat)
    requires k <= |lines| && (k < |lines| ==> Crashes(handle, lines[k])) &&
             forall j | 0 <= j < k :: !Crashes(handle, lines[j])
    ensures BeforeCrash(handle, lines) == lines[..k]
  {
    hide Crashes, BeforeCrash;
    var r := BeforeCrash(handle, lines);
    assert forall j | 0 <= j < |r| :: r[j] == lines[j];
  }

  lemma BeforeCrashConcat<M>(handle: string -> Outcome<M>, a: seq<string>, b: seq<string>)
    ensures BeforeCrash(handle, a) == a ==> BeforeCrash(handle, a + b) == a + BeforeCrash(handle, b)
    ensures BeforeCrash(handle, a) != a ==> BeforeCrash(handle, a + b) == BeforeCrash(handle, a)
  {
    hide BeforeCrash, Crashes;
    var r, q := BeforeCrash(handle, a), BeforeCrash(handle, b);
    if r == a {
      var k := |a| + |q|;
      forall j | 0 <= j < k
        ensures !Crashes(handle, (a + b)[j])
      {
        assert (a + b)[j] == if j < |a| then r[j] else q[j - |a|];
      }
      BeforeCrashIs(handle, a + b, k);
      assert (a + b)[..k] == a + q;
    } else {
      assert forall j | 0 <= j < |r| :: (a + b)[j] == r[j];
      BeforeCrashIs(handle, a + b, |r|);
    }
  }

  /** The text a sequence of chunks delivers before the connection ends. */
  function Delivered(chunks: seq<Read>): string {
    if |chunks| == 0 then ""
    else match chunks[0]
      case Data(text) => if text == "" then "" else text + Delivered(chunks[1..])
      case Timeout => Delivered(chunks[1..])
      case Closed => ""
      case Failed => ""
  }

  class Reader<M> {
    const handle: string -> Outcome<M>
    var buffer: string
    var results: seq<M>

    constructor (handle: string -> Outcome<M>)
      ensures this.handle == handle && buffer == "" && results == []
    {
      this.handle, buffer, results := handle, "", [];
    }

    method HandleLine(line: string) returns (ok: bool)
      modifies this`results
      ensures ok == !Crashes(handle, line)
      ensures results == old(results) + if ok then One(handle, line) else []
    {
      var s := Strip(line);
      ok := true;
      if s != "" {
        match handle(s) {
          case Keep(m) => results := results + [m];
          case Skip =>
          case Crash => ok := false;
        }
      }
    }

    /** Takes complete lines off the buffer until none is left or the handler fails on one. */
    method Process() returns (ok: bool)
      modifies this
      ensures ok == (BeforeCrash(handle, Lines(old(buffer))) == Lines(old(buffer)))
      ensures results == old(results) + Messages(handle, BeforeCrash(handle, Lines(old(buffer))))
      ensures ok ==> buffer == Rest(old(buffer))
    {
      hide BeforeCrash, Messages, One, Crashes, Lines, Rest, NewlineAt;
      ghost var done: seq<string> := [];
      NothingDone(handle);
      while NewlineAt(buffer) < |buffer|
        invariant Lines(old(buffer)) == done + Lines(buffer) && Rest(buffer) == Rest(old(buffer))
        invariant BeforeCrash(handle, done) == done
        invariant results == old(results) + Messages(handle, done)
        decreases |buffer|
      {
        var p := NewlineAt(buffer);
        var line := buffer[..p];
        TakeLine(buffer);
        buffer := buffer[p + 1..];
        assert done + ([line] + Lines(buffer)) == done + [line] + Lines(buffer);
        ok := HandleLine(line);
        LineDone(handle, done, line, Lines(buffer));
        assert old(results) + (Messages(handle, done) + One(handle, line))
                 == old(results) + Messages(handle, done) + One(handle, line);
        if !ok {
          return;
        }
        done := done + [line];
      }
      NoLine(buffer);
      assert done + [] == done;
      ok := true;
    }

    /** The collector: however the stream is cut into pieces, the results are the messages of its complete
        lines, in order, up to the first line the handler fails on; a failure ends the collection. */
    method Collect(chunks: seq<Read>)
      requires buffer == "" && results == []
      modifies this
      ensures results == Messages(handle, BeforeCrash(handle, Lines(Delivered(chunks))))
      ensures BeforeCrash(handle, Lines(Delivered(chunks))) == Lines(Delivered(chunks)) ==>
                buffer == Rest(Delivered(chunks))
    {
      hide BeforeCrash, Messages, Lines, Rest, Delivered;
      NothingDone(handle);
      ghost var seen := "";
      assert chunks[0..] == chunks && "" + Delivered(chunks) == Delivered(chunks);
      for n := 0 to |chunks|
        invariant Delivered(chunks) == seen + Delivered(chunks[n..])
        invariant BeforeCrash(handle, Lines(seen)) == Lines(seen)
        invariant results == Messages(handle, Lines(seen)) && buffer == Rest(seen)
      {
        var chunk := chunks[n];
        DeliveredNext(chunks, n);
        match chunk {
          case Timeout =>
          case Closed => assert seen + "" == seen; return;
          case Failed => assert seen + "" == seen; return;
          case Data(text) =>
            if text == "" {
              assert seen + "" == seen;
              return;
            }
            buffer := buffer + text;
            var ok := Process();
            ChunkDone(handle, seen, text);
            ghost var later := Delivered(chunks[n + 1..]);
            assert seen + (text + later) == seen + text + later;
            if !ok {
              CrashIsFinal(handle, seen + text, later);
              return;
            }
            seen := seen + text;
        }
      }
      assert chunks[|chunks|..] == [];
      assert seen + "" == seen;
    }

    /** The viewer's reader: one read, then the messages of the lines that are now complete.  A closed or
        failed connection returns nothing and leaves the buffer alone. */
    method ReadMessages(chunk: Read) returns (messages: seq<M>, connected: bool)
      requires forall line :: !Crashes(handle, line)
      modifies this
      ensures var text := if chunk.Data? then chunk.text else "";
              if chunk == Closed || chunk == Failed || chunk == Data("") then
                !connected && messages == [] && buffer == old(buffer) && results == old(results)
              else
                && connected
                && messages == Messages(handle, Lines(old(buffer) + text)) && results == old(results) + messages
                && buffer == Rest(old(buffer) + text)
    {
      hide Messages, Crashes;
      messages, connected := [], false;
      match chunk {
        case Closed => return;
        case Failed => return;
        case Data(text) =>
          if text == "" {
            return;
          }
          buffer := buffer + text;
        case Timeout =>
          assert old(buffer) + "" == old(buffer);
      }
      connected := true;
      ghost var whole := buffer;
      NoCrashNoLoss(handle, Lines(buffer));
      var seen := |results|;
      var _ := Process();
      messages := results[seen..];
    }

    /** The viewer over one connection: however the text is cut into reads, the messages are those of the complete
        lines, in order, of what the buffer held and all that was delivered. */
    method Follow(chunks: seq<Read>) returns (messages: seq<M>)
      requires forall line :: !Crashes(handle, line)
      requires '\n' !in buffer
      modifies this
      ensures messages == Messages(handle, Lines(old(buffer) + Delivered(chunks)))
      ensures buffer == Rest(old(buffer) + Delivered(chunks))
    {
      hide Messages, Crashes, Lines, Rest, Delivered, NewlineAt;
      messages := [];
      NoNewlineNoLine(buffer);
      NoMessages(handle);
      ghost var seen := old(buffer);
      assert old(buffer) + "" == old(buffer);
      assert chunks[0..] == chunks;
      for n := 0 to |chunks|
        invariant old(buffer) + Delivered(chunks) == seen + Delivered(chunks[n..])
        invariant messages == Messages(handle, Lines(seen)) && buffer == Rest(seen)
      {
        DeliveredNext(chunks, n);
        var chunk := chunks[n];
        var text := if chunk.Data? then chunk.text else "";
        RestHasNoLine(seen);
        var more, connected := ReadMessages(chunk);
        if !connected {
          assert seen + "" == seen;
          return;
        }
        SplitContinues(seen, text);
        MessagesConcat(handle, Lines(seen), Lines(Rest(seen) + text));
        assert seen + (text + Delivered(chunks[n + 1..])) == seen + text + Delivered(chunks[n + 1..]);
        assert seen + Delivered(chunks[n + 1..]) == seen + "" + Delivered(chunks[n + 1..]);
        messages := messages + more;
        seen := seen + text;
      }
      assert chunks[|chunks|..] == [];
      NothingDelivered();
      assert seen + "" == seen;
    }

    /** A client that connects again keeps what the first connection left unfinished, and reads it in front of the
        first line of the second.  That changes no message exactly when the second connection completes no line, or
        its first line with the remainder in front is handled as the line alone is. */
    static method TwoConnections(handle: string -> Outcome<M>, first: seq<Read>, second: seq<Read>)
      returns (before: seq<M>, after: seq<M>)
      requires forall line :: !Crashes(handle, line)
      ensures before == Messages(handle, Lines(Delivered(first)))
      ensures after == Messages(handle, Lines(Rest(Delivered(first)) + Delivered(second)))
      ensures after == Messages(handle, Lines(Delivered(second))) <==>
                Harmless(handle, Rest(Delivered(first)), Delivered(second))
    {
      hide Messages, Crashes, Lines, Rest, Delivered, Harmless;
      var client := new Reader<M>(handle);
      before := client.Follow(first);
      assert "" + Delivered(first) == Delivered(first);
      after := client.Follow(second);
      JoinedAcross(handle, Rest(Delivered(first)), Delivered(second));
    }
  }

  predicate Harmless<M(==)>(handle: string -> Outcome<M>, rest: string, text: string) {
    NewlineAt(text) == |text| || One(handle, rest + text[..NewlineAt(text)]) == One(handle, text[..NewlineAt(text)])
  }

  lemma JoinedAcross<M>(handle: string -> Outcome<M>, rest: string, text: string)
    requires '\n' !in rest
    ensures Messages(handle, Lines(rest + text)) == Messages(handle, Lines(text)) <==> Harmless(handle, rest, text)
  {
    hide Lines, Rest, NewlineAt, One;
    var p := NewlineAt(text);
    NewlineAfter(rest, text);
    if p == |text| {
      NoLine(text);
      NoLine(rest + text);
    } else {
      TakeLine(text);
      TakeLine(rest + text);
      assert (rest + text)[..|rest| + p] == rest + text[..p];
      assert (rest + text)[|rest| + p + 1..] == text[p + 1..];
      var tail := Lines(text[p + 1..]);
      FirstMessage(handle, rest + text[..p], tail);
      FirstMessage(handle, text[..p], tail);
      SameFront(One(handle, rest + text[..p]), One(handle, text[..p]), Messages(handle, tail));
    }
  }

  lemma FirstMessage<M>(handle: string -> Outcome<M>, line: string, tail: seq<string>)
    ensures Messages(handle, [line] + tail) == One(handle, line) + Messages(handle, tail)
  {
    assert ([line] + tail)[1..] == tail;
  }

  lemma NewlineAfter(rest: string, text: string)
    requires '\n' !in rest
    ensures NewlineAt(rest + text) == |rest| + NewlineAt(text)
  {
    hide NewlineAt;
    var p, q := NewlineAt(rest + text), |rest| + NewlineAt(text);
    if q < |rest + text| {
      assert (rest + text)[q] == text[q - |rest|];
    }
    forall k | 0 <= k < q
      ensures (rest + text)[k] != '\n'
    {
      if k < |rest| {
        assert rest[k] in rest;
      }
    }
  }

  lemma NoNewlineNoLine(s: string)
    requires '\n' !in s
    ensures Lines(s) == [] && Rest(s) == s
  {
    hide NewlineAt;
    NoLine(s);
  }

  lemma RestHasNoLine(s: string)
    ensures Lines(Rest(s)) == [] && Rest(Rest(s)) == Rest(s)
  {
    hide Lines, Rest;
    NoNewlineNoLine(Rest(s));
  }

  lemma NoMessages<M>(handle: string -> Outcome<M>)
    ensures Messages(handle, []) == []
  {
  }

  lemma NothingDelivered()
    ensures Delivered([]) == ""
  {
  }

  lemma NothingDone<M>(handle: string -> Outcome<M>)
    ensures Messages(handle, []) == [] && BeforeCrash(handle, []) == []
    ensures Lines("") == [] && Rest("") == "" && Delivered([]) == ""
  {
  }

  lemma MessagesLast<M>(handle: string -> Outcome<M>, done: seq<string>, line: string)
    ensures Messages(handle, done + [line]) == Messages(handle, done) + One(handle, line)
  {
    MessagesConcat(handle, done, [line]);
    assert [line][1..] == [];
    assert Messages(handle, [line]) == One(handle, line) + Messages(handle, []);
  }

  lemma LineDone<M>(handle: string -> Outcome<M>, done: seq<string>, line: string, later: seq<string>)
    requires BeforeCrash(handle, done) == done
    ensures Crashes(handle, line) ==>
              BeforeCrash(handle, done + [line] + later) == done && done != done + [line] + later
    ensures !Crashes(handle, line) ==> BeforeCrash(handle, done + [line]) == done + [line]
    ensures Messages(handle, done + [line]) == Messages(handle, done) + One(handle, line)
  {
    hide BeforeCrash, Crashes, Messages, One;
    MessagesLast(handle, done, line);
    if Crashes(handle, line) {
      BeforeCrashIs(handle, done + [line] + later, |done|);
      assert (done + [line] + later)[..|done|] == done;
      assert |done + [line] + later| > |done|;
    } else {
      BeforeCrashIs(handle, done + [line], |done| + 1);
    }
  }

  lemma ChunkDone<M>(handle: string -> Outcome<M>, seen: string, text: string)
    requires BeforeCrash(handle, Lines(seen)) == Lines(seen)
    ensures Rest(Rest(seen) + text) == Rest(seen + text)
    ensures BeforeCrash(handle, Lines(seen + text)) == Lines(seen) + BeforeCrash(handle, Lines(Rest(seen) + text))
    ensures Messages(handle, BeforeCrash(handle, Lines(seen + text)))
         == Messages(handle, Lines(seen)) + Messages(handle, BeforeCrash(handle, Lines(Rest(seen) + text)))
    ensures BeforeCrash(handle, Lines(seen + text)) == Lines(seen + text)
       <==> BeforeCrash(handle, Lines(Rest(seen) + text)) == Lines(Rest(seen) + text)
  {
    hide BeforeCrash, Messages, Lines, Rest;
    SplitContinues(seen, text);
    var handled := BeforeCrash(handle, Lines(Rest(seen) + text));
    BeforeCrashConcat(handle, Lines(seen), Lines(Rest(seen) + text));
    MessagesConcat(handle, Lines(seen), handled);
    assert |Lines(seen) + handled| == |Lines(seen)| + |handled|;
  }

  lemma DeliveredNext(chunks: seq<Read>, n: nat)
    requires n < |chunks|
    ensures Delivered(chunks[n..]) == match chunks[n]
                                      case Data(text) => if text == "" then "" else text + Delivered(chunks[n + 1..])
                                      case Timeout => Delivered(chunks[n + 1..])
                                      case Closed => ""
                                      case Failed => ""
  {
    assert chunks[n..][1..] == chunks[n + 1..];
  }

  lemma CrashIsFinal<M>(handle: string -> Outcome<M>, a: string, b: string)
    requires BeforeCrash(handle, Lines(a)) != Lines(a)
    ensures BeforeCrash(handle, Lines(a + b)) == BeforeCrash(handle, Lines(a)) &&
            BeforeCrash(handle, Lines(a + b)) != Lines(a + b)
  {
    SplitContinues(a, b);
    BeforeCrashConcat(handle, Lines(a), Lines(Rest(a) + b));
    assert |BeforeCrash(handle, Lines(a))| <= |Lines(a)|;
  }

  /** With a handler that never fails, as the viewer's does, the results are those of all complete lines. */
  lemma NoCrashNoLoss<M>(handle: string -> Outcome<M>, lines: seq<string>)
    requires forall k | 0 <= k < |lines| :: !Crashes(handle, lines[k])
    ensures BeforeCrash(handle, lines) == lines
  {
    BeforeCrashIs(handle, lines, |lines|);
  }

  /** The collector loses nothing exactly when no kept message follows the first failing line. */
  lemma CompleteExactlyWhen<M>(handle: string -> Outcome<M>, lines: seq<string>)
    ensures Messages(handle, BeforeCrash(handle, lines)) == Messages(handle, lines)
       <==> Messages(handle, lines[|BeforeCrash(handle, lines)|..]) == []
  {
    hide BeforeCrash, Messages, Crashes;
    var k := |BeforeCrash(handle, lines)|;
    assert lines == lines[..k] + lines[k..] && lines[..k] == BeforeCrash(handle, lines);
    MessagesConcat(handle, lines[..k], lines[k..]);
  }

  // ---- one message per kept line ----------------------------------------------------------------

  predicate IsKept<M>(handle: string -> Outcome<M>, line: string) { Strip(line) != "" && handle(Strip(line)).Keep? }

  /** The lines that the handler keeps, in order. */
  function KeptLines<M>(handle: string -> Outcome<M>, lines: seq<string>): (r: seq<string>)
    ensures forall k | 0 <= k < |r| :: IsKept(handle, r[k])
  {
    if |lines| == 0 then []
    else (if IsKept(handle, lines[0]) then [lines[0]] else []) + KeptLines(handle, lines[1..])
  }

  /** The messages are those of the kept lines: as many, in the same order, each read from its stripped line. */
  lemma {:induction false} OneMessageEach<M>(handle: string -> Outcome<M>, lines: seq<string>)
    ensures |Messages(handle, lines)| == |KeptLines(handle, lines)|
    ensures forall k | 0 <= k < |KeptLines(handle, lines)| ::
              handle(Strip(KeptLines(handle, lines)[k])) == Keep(Messages(handle, lines)[k])
  {
    hide Strip;
    if |lines| > 0 {
      OneMessageEach(handle, lines[1..]);
      var first, kept := One(handle, lines[0]), if IsKept(handle, lines[0]) then [lines[0]] else [];
      assert |first| == |kept|;
      assert Messages(handle, lines) == first + Messages(handle, lines[1..]);
      assert KeptLines(handle, lines) == kept + KeptLines(handle, lines[1..]);
    }
  }

  /** Reads that end the connection. */
  predicate Ends(chunk: Read) { chunk == Closed || chunk == Failed || chunk == Data("") }

  /** What is delivered: the texts up to the first read that ends the connection, whatever comes after; time-outs
      deliver nothing and end nothing. */
  lemma {:induction false} DeliveredIs(a: seq<Read>, b: seq<Read>)
    requires forall k | 0 <= k < |a| :: !Ends(a[k])
    ensures Delivered(a + b) == Delivered(a) + Delivered(b)
    ensures |b| > 0 && Ends(b[0]) ==> Delivered(a + b) == Delivered(a)
    ensures |a| == 1 ==> Delivered(a) == if a[0].Data? then a[0].text else ""
    decreases |a|
  {
    if |a| == 0 {
      assert a + b == b;
    } else {
      DeliveredIs(a[1..], b);
      assert (a + b)[1..] == a[1..] + b;
      if a[0].Data? {
        assert a[0].text + (Delivered(a[1..]) + Delivered(b)) == a[0].text + Delivered(a[1..]) + Delivered(b);
      }
    }
  }

  // ---- what goes wrong -----------------------------------------------------------------------------

  /** A line whose handling fails hides the message of the line after it, whatever the handler. */
  lemma CrashHidesMessage<M>(handle: string -> Outcome<M>, bad: string, good: string)
    requires '\n' !in bad && '\n' !in good && Crashes(handle, bad) && One(handle, good) != []
    ensures var lines := Lines(Delivered([Data(bad + "\n" + good + "\n")]));
            lines == [bad, good] && Messages(handle, BeforeCrash(handle, lines)) == [] && Messages(handle, lines) != []
  {
    hide Lines, Crashes, BeforeCrash, One;
    var text := bad + "\n" + good + "\n";
    assert [Data(text)][1..] == [] && text + "" == text && Delivered([Data(text)]) == text;
    assert text == bad + "\n" + (good + "\n" + "");
    OneLine(bad, good + "\n" + "");
    OneLine(good, "");
    NoNewlineNoLine("");
    assert [bad] + ([good] + []) == [bad, good];
    BeforeCrashIs(handle, [bad, good], 0);
    FirstMessage(handle, bad, [good]);
    FirstMessage(handle, good, []);
    assert [bad] + [good] == [bad, good] && [good] + [] == [good];
  }

  /** A handler in the collector's manner: the number 1 parses, but has no `get`; "m" stands for an object of type
      benchmark_result; other lines are skipped. */
  function Collector(): string -> Outcome<string> {
    (line: string) => if line == "1" then Crash else if line == "m" then Keep(line) else Skip
  }

  /** The collector over one read of two lines: the second is a message, and is lost. */
  method LosesMessage() returns (results: seq<string>)
    ensures results == [] && Messages(Collector(), Lines(Delivered([Data("1" + "\n" + "m" + "\n")]))) != []
  {
    hide Messages, Lines, Rest, Delivered, BeforeCrash, Crashes, One, Collector, NewlineAt, Strip;
    CollectorFails();
    CrashHidesMessage(Collector(), "1", "m");
    var reader := new Reader<string>(Collector());
    reader.Collect([Data("1" + "\n" + "m" + "\n")]);
    results := reader.results;
  }

  lemma CollectorFails()
    ensures Crashes(Collector(), "1") && One(Collector(), "m") != []
  {
    hide Strip;
    StripsShort();
  }

  lemma StripsShort()
    ensures Strip("1") == "1" && Strip("m") == "m" && Strip("1" + "2") == "1" + "2" && Strip("2") == "2"
  {
    hide Strip;
    StripVisible("1");
    StripVisible("2");
    StripVisible("m");
    StripVisible("1" + "2");
  }

  function KeepAll(): string -> Outcome<string> { (line: string) => Keep(line) }

  lemma JoinedDiffers()
    ensures !Harmless(KeepAll(), "1", "2" + "\n")
  {
    hide Strip;
    StripsShort();
    var text := "2" + "\n";
    assert text[0] == '2' && text[1] == '\n' && NewlineAt(text) == 1 && text[..1] == "2";
    assert One(KeepAll(), "1" + "2") == ["1" + "2"] && One(KeepAll(), "2") == ["2"];
    assert |"1" + "2"| == 2;
  }

  /** A connection that ends inside a line joins what it left to the first line of the next. */
  method JoinsConnections() returns (after: seq<string>)
    ensures after == Messages(KeepAll(), Lines("1" + ("2" + "\n"))) != Messages(KeepAll(), Lines("2" + "\n"))
  {
    hide Messages, Lines, Rest, Delivered, Harmless, KeepAll;
    JoinedDiffers();
    DeliveredThenClosed("1");
    DeliveredThenClosed("2" + "\n");
    NoNewlineNoLine("1");
    NeverCrashes();
    var _, second := Reader.TwoConnections(KeepAll(), [Data("1"), Closed], [Data("2" + "\n"), Closed]);
    after := second;
  }

  lemma NeverCrashes()
    ensures forall line :: !Crashes(KeepAll(), line)
  {
  }

  lemma DeliveredThenClosed(text: string)
    requires text != ""
    ensures Delivered([Data(text), Closed]) == text
  {
    assert [Data(text), Closed][1..] == [Closed];
    assert text + "" == text;
  }
}
