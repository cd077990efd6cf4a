/** On-demand stack traces: each captured program counter is resolved to a
    frame, and the frames are rendered as one message, a header followed by
    numbered lines joined by newlines. Symbol lookup (`runtime.FuncForPC`
    and `FileLine`) is an abstract resolver, and what `runtime.Callers`
    reports is a parameter. */
module LoggerStacktrace {
  import opened Decimal
  import opened MultiErr

  /** Maximum number of program counters captured. */
  const MaxStackDepth: nat := 99

  newtype Uintptr = x: int | 0 <= x < 0x1_0000_0000_0000_0000

  /** What symbol lookup yields for one program counter. */
  datatype Resolution = Resolved(name: string, file: string, line: int) | NotFound

  type Resolver = Uintptr -> Resolution

  datatype StackFrame = StackFrame(FuncName: string, Filename: string, Line: int)

  /** `NewStackFrame`: the resolved name, file and line, or, when no
      function is found, the sentinel frame (the name of a nil function is
      the empty string). */
  function NewStackFrame(resolve: Resolver, framePC: Uintptr): (f: StackFrame)
    ensures resolve(framePC).NotFound? ==> f == StackFrame("", "unknown", -1)
    ensures resolve(framePC).Resolved? ==>
              f.FuncName == resolve(framePC).name && f.Filename == resolve(framePC).file
              && f.Line == resolve(framePC).line
  {
    match resolve(framePC)
    case NotFound => StackFrame("", "unknown", -1)
    case Resolved(name, file, line) => StackFrame(name, file, line)
  }

  const Header: string := "Stack trace:\n"

  /** `fmt.Sprintf("%2d: %s at %s:%d", i, name, file, line)`: the index
      right-aligned in two columns, then ": ", the function name, " at ",
      the file, ":" and the line number. */
  function FrameLine(i: nat, f: StackFrame): (line: string)
    ensures i < 100 ==> |line| >= 2
    ensures i < 10 ==> line[..2] == [' ', DigitChar(i)]
    ensures 10 <= i < 100 ==> line[..2] == [DigitChar(i / 10), DigitChar(i % 10)]
    ensures i < 100 ==> line[2..] == ": " + f.FuncName + " at " + f.Filename + ":" + IntToDecimal(f.Line)
  {
    var index := PadLeft(NatToDecimal(i), 2);
    assert i < 10 ==> index == [' ', DigitChar(i)] by {
      if i < 10 { PaddedOneDigit(i); }
    }
    assert 10 <= i < 100 ==> index == [DigitChar(i / 10), DigitChar(i % 10)] by {
      if 10 <= i < 100 { PaddedTwoDigits(i); }
    }
    index + ": " + f.FuncName + " at " + f.Filename + ":" + IntToDecimal(f.Line)
  }

  function FrameLines(resolve: Resolver, stack: seq<Uintptr>): seq<string> {
    seq(|stack|, i requires 0 <= i < |stack| => FrameLine(i, NewStackFrame(resolve, stack[i])))
  }

  /** Lines separated by "\n", none after the last. */
  function JoinLines(lines: seq<string>): string {
    if |lines| == 0 then ""
    else if |lines| == 1 then lines[0]
    else JoinLines(lines[..|lines| - 1]) + "\n" + lines[|lines| - 1]
  }

  /** The whole message for a stack of program counters. */
  function StacktraceText(resolve: Resolver, stack: seq<Uintptr>): string {
    Header + JoinLines(FrameLines(resolve, stack))
  }

  /** `buildStacktraceLogString`. */
  method BuildStacktraceLogString(resolve: Resolver, stack: seq<Uintptr>) returns (s: string)
    ensures s == StacktraceText(resolve, stack)
  {
    ghost var lines := FrameLines(resolve, stack);
    s := Header;
    var i := 0;
    while i < |stack|
      invariant 0 <= i <= |stack|
      invariant |stack| > 0 ==> i < |stack|
      invariant s == Built(lines, i)
    {
      var frameRepr := NewStackFrame(resolve, stack[i]);
      var line := FrameLine(i, frameRepr);
      s := s + line;
      if i == |stack| - 1 {
        BuiltThenLast(lines);
        break;
      }
      s := s + "\n";
      i := i + 1;
    }
  }

  /** What the builder holds after writing `i` lines, each followed by its
      newline. */
  function Built(lines: seq<string>, i: nat): string
    requires i <= |lines|
  {
    if i == 0 then Header else Built(lines, i - 1) + lines[i - 1] + "\n"
  }

  lemma Assoc(a: string, b: string, c: string)
    ensures a + b + c == a + (b + c)
  {
  }

  lemma {:induction false} BuiltIsJoin(lines: seq<string>, i: nat)
    requires 0 < i <= |lines|
    ensures Built(lines, i) == Header + JoinLines(lines[..i]) + "\n"
  {
    if i == 1 {
      assert lines[..1] == [lines[0]];
    } else {
      BuiltIsJoin(lines, i - 1);
      assert lines[..i][..i - 1] == lines[..i - 1];
      Assoc(Header, JoinLines(lines[..i - 1]) + "\n", lines[i - 1]);
    }
  }

  /** Writing the last line without its newline completes the join. */
  lemma BuiltThenLast(lines: seq<string>)
    requires |lines| > 0
    ensures Built(lines, |lines| - 1) + lines[|lines| - 1] == Header + JoinLines(lines)
  {
    var n := |lines|;
    if n > 1 {
      BuiltIsJoin(lines, n - 1);
      Assoc(Header, JoinLines(lines[..n - 1]) + "\n", lines[n - 1]);
    }
  }

  function Min(a: nat, b: nat): nat {
    if a < b then a else b
  }

  /** `LogStacktrace`: the runtime writes at most `MaxStackDepth` program
      counters into the buffer, and the last two of those written are
      dropped before rendering. Slicing panics when fewer than two were
      written (a goroutine started directly on `LogStacktrace` has only
      `runtime.goexit` above it); None is that panic. */
  method LogStacktrace(resolve: Resolver, callers: seq<Uintptr>) returns (message: Option<string>)
    ensures message.None? <==> |callers| < 2
    ensures message.Some? ==>
              message.value == StacktraceText(resolve, callers[..Min(|callers|, MaxStackDepth) - 2])
  {
    var pcs := new Uintptr[MaxStackDepth];
    var n := 0;
    while n < pcs.Length && n < |callers|
      invariant 0 <= n <= pcs.Length && n <= |callers|
      invariant pcs[..n] == callers[..n]
    {
      pcs[n] := callers[n];
      n := n + 1;
    }
    assert n == Min(|callers|, MaxStackDepth);
    if n < 2 {
      return None;
    }
    var stack := pcs[..n - 2];
    assert stack == callers[..n - 2];
    var text := BuildStacktraceLogString(resolve, stack);
    message := Some(text);
  }

  /** An empty stack renders as the header alone. */
  lemma EmptyStackRendersHeader(resolve: Resolver)
    ensures StacktraceText(resolve, []) == "Stack trace:\n"
  {
  }

  lemma {:induction false} JoinLinesEndsWithLast(lines: seq<string>)
    requires |lines| > 0
    ensures |JoinLines(lines)| >= |lines[|lines| - 1]|
    ensures JoinLines(lines)[|JoinLines(lines)| - |lines[|lines| - 1]|..] == lines[|lines| - 1]
  {
    if |lines| > 1 {
      var last := lines[|lines| - 1];
      var j := JoinLines(lines);
      assert j == (JoinLines(lines[..|lines| - 1]) + "\n") + last;
    }
  }

  /** Joining from the front: the first line, then a newline and the rest. */
  lemma {:induction false} JoinLinesCons(first: string, rest: seq<string>)
    ensures JoinLines([first] + rest) == first + (if rest == [] then "" else "\n" + JoinLines(rest))
    decreases |rest|
  {
    var lines := [first] + rest;
    if |rest| == 1 {
      assert lines[..1] == [first];
    } else if |rest| > 1 {
      var init := rest[..|rest| - 1];
      assert lines[..|lines| - 1] == [first] + init;
      JoinLinesCons(first, init);
      assert rest[..|rest| - 1] == init;
    }
  }

  /** The message always starts with the header. */
  lemma RenderStartsWithHeader(resolve: Resolver, stack: seq<Uintptr>)
    ensures StacktraceText(resolve, stack)[..|Header|] == Header
  {
  }

  /** A frame line ends with the last digit of its line number. */
  lemma FrameLineEndsWithDigit(i: nat, f: StackFrame)
    ensures |FrameLine(i, f)| > 0 && IsDigit(FrameLine(i, f)[|FrameLine(i, f)| - 1])
  {
    var digits := IntToDecimal(f.Line);
    var line := FrameLine(i, f);
    assert line == (PadLeft(NatToDecimal(i), 2) + ": " + f.FuncName + " at " + f.Filename + ":") + digits;
    assert line[|line| - 1] == digits[|digits| - 1];
  }

  /** A suffix of `j` is a suffix of `h + j`. */
  lemma SuffixOfConcat(h: string, j: string, last: string)
    requires |last| > 0 && |j| >= |last| && j[|j| - |last|..] == last
    ensures |h + j| >= |last| && (h + j)[|h + j| - |last|..] == last
    ensures (h + j)[|h + j| - 1] == last[|last| - 1]
  {
    assert (h + j)[|h + j| - |last|..] == j[|j| - |last|..];
  }

  /** For a non-empty stack the message ends with the last frame's line,
      whose last character is a digit of its line number: there is no
      trailing newline. */
  lemma RenderEndsWithLastFrame(resolve: Resolver, stack: seq<Uintptr>)
    requires |stack| > 0
    ensures var s := StacktraceText(resolve, stack);
            var last := FrameLine(|stack| - 1, NewStackFrame(resolve, stack[|stack| - 1]));
            |s| >= |last| && s[|s| - |last|..] == last && IsDigit(s[|s| - 1]) && s[|s| - 1] != '\n'
  {
    var lines := FrameLines(resolve, stack);
    var last := lines[|lines| - 1];
    JoinLinesEndsWithLast(lines);
    FrameLineEndsWithDigit(|stack| - 1, NewStackFrame(resolve, stack[|stack| - 1]));
    SuffixOfConcat(Header, JoinLines(lines), last);
  }

  /** At most 97 frames are rendered, so every index pads to exactly two
      characters. */
  lemma RenderedIndicesFitWidth(callers: seq<Uintptr>)
    requires |callers| >= 2
    ensures Min(|callers|, MaxStackDepth) - 2 <= 97
    ensures forall i: nat :: i < Min(|callers|, MaxStackDepth) - 2 ==>
              |PadLeft(NatToDecimal(i), 2)| == 2
  {
    forall i: nat | i < Min(|callers|, MaxStackDepth) - 2
      ensures |PadLeft(NatToDecimal(i), 2)| == 2
    {
      NatToDecimalWidth(i);
    }
  }
}
