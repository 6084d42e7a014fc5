/**
 * The Opera formatters. Each splits one property of the error on line
 * breaks and walks the lines; opera11, opera10a and opera9 look only at
 * every second line (0, 2, 4, ...), skip empty and non-matching ones and
 * turn each match into a canonical frame line. The `lines.map(...)` calls
 * that were meant to blank the odd lines discard their result, so they
 * change nothing and are not modelled. As written, opera10b pushes to and
 * returns an undeclared `result`, and opera10a and opera9 read an
 * undeclared `results` whenever a limit is given: those calls throw
 * ReferenceError.
 */
module Opera {
  import opened Js
  import opened JsText
  import opened Regex
  import opened Detect
  import opened Frames

  const Opera11LineRE: Pattern := Pattern("^.*line (\\d+), column (\\d+)(?: in (.+))? in (\\S+):$", "")
  const AnonFunctionNamedRE: Pattern := Pattern("<anonymous function: (\\S+)>", "")
  const AnonFunctionRE: Pattern := Pattern("<anonymous function>", "")
  const Opera10bLineRE: Pattern := Pattern("^(.*)@(.+):(\\d+)$", "")
  const Opera10aLineRE: Pattern := Pattern("Line (\\d+).*script (?:in )?(\\S+)(?:: In function (\\S+))?$", "i")
  const Opera9LineRE: Pattern := Pattern("Line (\\d+).*script (?:in )?(\\S+)", "i")

  /** The three formatters that walk every second line. */
  datatype OperaKind = Opera11Lines | Opera10aLines | Opera9Lines

  /** opera11's function name: group 3 or "global code", with the anonymous markers rewritten. */
  function Opera11Name(rx: Engine, m: Captures): string {
    var fnName := GroupOr(m, 3, "global code");
    rx.replace(AnonFunctionRE, rx.replace(AnonFunctionNamedRE, fnName, "$1"), Anon)
  }

  /** opera11's frame: `fnName@file:line:column` from groups 4, 1 and 2. */
  function Opera11Frame(rx: Engine, m: Captures): string {
    Opera11Name(rx, m) + "@" + GroupText(m, 4) + ":" + GroupText(m, 1) + ":" + GroupText(m, 2)
  }

  /** opera10a's frame: `fnName()@file:line:` from groups 3 (or '{anonymous}'), 2 and 1. */
  function Opera10aFrame(m: Captures): string {
    GroupOr(m, 3, Anon) + "()@" + GroupText(m, 2) + ":" + GroupText(m, 1) + ":"
  }

  /** opera9's frame: `{anonymous}()@file:line:` from groups 2 and 1. */
  function Opera9Frame(m: Captures): string {
    AnonCall + "@" + GroupText(m, 2) + ":" + GroupText(m, 1) + ":"
  }

  /** One line in opera11: `lines[i] !== '' && (match = lineRE.exec(lines[i]))`, then the push. */
  function Opera11Line(rx: Engine, line: string): Option<string> {
    if line == "" then None
    else
      match rx.exec(Opera11LineRE, line)
      case None => None
      case Some(m) => Some(Opera11Frame(rx, m))
  }

  /** One line in opera10a. */
  function Opera10aLine(rx: Engine, line: string): Option<string> {
    if line == "" then None
    else
      match rx.exec(Opera10aLineRE, line)
      case None => None
      case Some(m) => Some(Opera10aFrame(m))
  }

  /** One line in opera9. */
  function Opera9Line(rx: Engine, line: string): Option<string> {
    if line == "" then None
    else
      match rx.exec(Opera9LineRE, line)
      case None => None
      case Some(m) => Some(Opera9Frame(m))
  }

  /** The frame one line yields, if any: empty and non-matching lines yield none. */
  function LineFrame(kind: OperaKind, rx: Engine, line: string): (r: Option<string>)
    ensures line == "" ==> r.None?
  {
    match kind
    case Opera11Lines => Opera11Line(rx, line)
    case Opera10aLines => Opera10aLine(rx, line)
    case Opera9Lines => Opera9Line(rx, line)
  }

  /** The frames of the examined lines below i (lines 0, 2, ..., i - 2), in order. */
  function FramesBefore(kind: OperaKind, rx: Engine, lines: seq<string>, i: nat): seq<string>
    requires i <= |lines| + 1
    decreases i
  {
    if i < 2 then []
    else
      FramesBefore(kind, rx, lines, i - 2)
      + (match LineFrame(kind, rx, lines[i - 2]) case Some(x) => [x] case None => [])
  }

  /** The frames of all examined lines: where the loop stops, at the first even i >= |lines|. */
  function EvenLineFrames(kind: OperaKind, rx: Engine, lines: seq<string>): seq<string> {
    FramesBefore(kind, rx, lines, |lines| + |lines| % 2)
  }

  /** At most one frame per examined line. */
  lemma {:induction false} FramesBeforeBound(kind: OperaKind, rx: Engine, lines: seq<string>, i: nat)
    requires i <= |lines| + 1
    ensures |FramesBefore(kind, rx, lines, i)| <= i / 2
    decreases i
  {
    if i >= 2 {
      FramesBeforeBound(kind, rx, lines, i - 2);
    }
  }

  /** No more frames than half the lines, rounded up. */
  lemma EvenLineFramesBound(kind: OperaKind, rx: Engine, lines: seq<string>)
    ensures |EvenLineFrames(kind, rx, lines)| <= (|lines| + 1) / 2
  {
    FramesBeforeBound(kind, rx, lines, |lines| + |lines| % 2);
  }

  /** What the formatters compute, or the exception they throw. */
  function OperaSpec(kind: OperaKind, rx: Engine, e: ErrorLike, limit: nat): Result<seq<string>>
  {
    match kind
    case Opera11Lines =>
      if e.stacktrace == "" then Err(TypeError)
      else Ok(EvenLineFrames(kind, rx, SplitLines(e.stacktrace)))
    case Opera10aLines =>
      if e.stacktrace == "" then Err(TypeError)
      else if limit > 0 then Err(ReferenceError)
      else Ok(EvenLineFrames(kind, rx, SplitLines(e.stacktrace)))
    case Opera9Lines =>
      if e.message == "" then Err(TypeError)
      else if limit > 0 then Err(ReferenceError)
      else Ok(EvenLineFrames(kind, rx, SplitLines(e.message)))
  }

  /** The property a formatter reads: `e.message` for opera9, `e.stacktrace` otherwise. */
  function Source(kind: OperaKind, e: ErrorLike): string {
    if kind == Opera9Lines then e.message else e.stacktrace
  }

  /**
   * When the formatters throw: TypeError exactly when the property they
   * split is missing, ReferenceError exactly when opera10a or opera9 is
   * given a limit; otherwise they yield at most one frame per two lines.
   */
  lemma OperaOutcomes(kind: OperaKind, rx: Engine, e: ErrorLike, limit: nat)
    ensures OperaSpec(kind, rx, e, limit) == Err(TypeError) <==> Source(kind, e) == ""
    ensures OperaSpec(kind, rx, e, limit) == Err(ReferenceError) <==>
      kind != Opera11Lines && limit > 0 && Source(kind, e) != ""
    ensures OperaSpec(kind, rx, e, limit).Ok? ==>
      |OperaSpec(kind, rx, e, limit).value| <= (|SplitLines(Source(kind, e))| + 1) / 2
  {
    EvenLineFramesBound(kind, rx, SplitLines(Source(kind, e)));
  }

  /** `formatters.opera11`: walks lines 0, 2, 4, ... of `e.stacktrace`; ignores the limit. */
  method Opera11Format(rx: Engine, e: ErrorLike, limit: nat) returns (r: Result<seq<string>>)
    ensures r == OperaSpec(Opera11Lines, rx, e, limit)
  {
    if e.stacktrace == "" {
      // `e.stacktrace.split(...)` on undefined
      return Err(TypeError);
    }
    var lines := SplitLines(e.stacktrace);
    var result: seq<string> := [];
    var i := 0;
    while i < |lines|
      invariant 0 <= i <= |lines| + 1 && i % 2 == 0
      invariant result == FramesBefore(Opera11Lines, rx, lines, i)
    {
      var frame := Opera11Line(rx, lines[i]);
      if frame.Some? {
        result := result + [frame.value];
      }
      i := i + 2;
    }
    r := Ok(result);
  }

  /**
   * `formatters.opera10a`: walks lines 0, 2, 4, ... of `e.stacktrace`.
   * Each iteration first reads the undeclared `results` when a limit is
   * given, so any limit throws on the first line.
   */
  method Opera10aFormat(rx: Engine, e: ErrorLike, limit: nat) returns (r: Result<seq<string>>)
    ensures r == OperaSpec(Opera10aLines, rx, e, limit)
  {
    if e.stacktrace == "" {
      return Err(TypeError);
    }
    var lines := SplitLines(e.stacktrace);
    var result: seq<string> := [];
    var i := 0;
    while i < |lines|
      invariant 0 <= i <= |lines| + 1 && i % 2 == 0
      invariant limit > 0 ==> i == 0
      invariant result == FramesBefore(Opera10aLines, rx, lines, i)
    {
      if limit > 0 {
        // `results.length`: `results` is not declared.
        return Err(ReferenceError);
      }
      var frame := Opera10aLine(rx, lines[i]);
      if frame.Some? {
        result := result + [frame.value];
      }
      i := i + 2;
    }
    r := Ok(result);
  }

  /** `formatters.opera9`: as opera10a, over the lines of `e.message`. */
  method Opera9Format(rx: Engine, e: ErrorLike, limit: nat) returns (r: Result<seq<string>>)
    ensures r == OperaSpec(Opera9Lines, rx, e, limit)
  {
    if e.message == "" {
      return Err(TypeError);
    }
    var lines := SplitLines(e.message);
    var result: seq<string> := [];
    var i := 0;
    while i < |lines|
      invariant 0 <= i <= |lines| + 1 && i % 2 == 0
      invariant limit > 0 ==> i == 0
      invariant result == FramesBefore(Opera9Lines, rx, lines, i)
    {
      if limit > 0 {
        // `results.length`: `results` is not declared.
        return Err(ReferenceError);
      }
      var frame := Opera9Line(rx, lines[i]);
      if frame.Some? {
        result := result + [frame.value];
      }
      i := i + 2;
    }
    r := Ok(result);
  }

  /** `formatters.opera10b`: every call throws. */
  method Opera10bFormat(rx: Engine, e: ErrorLike, limit: nat) returns (r: Result<seq<string>>)
    ensures r.Err?
    ensures r.error == (if e.stacktrace == "" then TypeError else ReferenceError)
  {
    if e.stacktrace == "" {
      return Err(TypeError);
    }
    var results: seq<string> := [];
    var lines := SplitLines(e.stacktrace);
    var i := 0;
    while i < |lines|
      invariant 0 <= i <= |lines|
    {
      // `results` is declared and stays empty, so any limit breaks at once.
      if limit > 0 && |results| < limit {
        break;
      }
      var m := rx.exec(Opera10bLineRE, lines[i]);
      if m.Some? {
        // `result.push(...)`: `result` is not declared.
        return Err(ReferenceError);
      }
      i := i + 1;
    }
    // `return result`: `result` is not declared.
    r := Err(ReferenceError);
  }

  /** Lines that agree on the even indices below i give the same frames below i. */
  lemma {:induction false} FramesBeforeEvenOnly(kind: OperaKind, rx: Engine, a: seq<string>, b: seq<string>, i: nat)
    requires |a| == |b| && i <= |a| + 1 && i % 2 == 0
    requires forall k :: 0 <= k < |a| && k % 2 == 0 ==> a[k] == b[k]
    ensures FramesBefore(kind, rx, a, i) == FramesBefore(kind, rx, b, i)
    decreases i
  {
    if i >= 2 {
      FramesBeforeEvenOnly(kind, rx, a, b, i - 2);
      assert a[i - 2] == b[i - 2];
    }
  }

  /** Only lines 0, 2, 4, ... are examined: the lines in between never matter. */
  lemma EvenLinesOnly(kind: OperaKind, rx: Engine, a: seq<string>, b: seq<string>)
    requires |a| == |b|
    requires forall k :: 0 <= k < |a| && k % 2 == 0 ==> a[k] == b[k]
    ensures EvenLineFrames(kind, rx, a) == EvenLineFrames(kind, rx, b)
  {
    FramesBeforeEvenOnly(kind, rx, a, b, |a| + |a| % 2);
  }

  /** Digits hold neither '@' nor ':'. */
  lemma DecimalHasNoSeparators(s: string)
    requires IsDecimal(s)
    ensures '@' !in s && ':' !in s
  {
    assert forall k :: 0 <= k < |s| ==> IsDigit(s[k]);
  }

  /**
   * An opera11 frame built from a match whose line and column groups are
   * digits and whose file group holds no '@' parses back into the
   * rewritten function name, the file, the line and the column.
   */
  lemma Opera11FrameParses(rx: Engine, m: Captures)
    requires IsDecimal(GroupText(m, 1)) && IsDecimal(GroupText(m, 2))
    requires '@' !in GroupText(m, 4)
    ensures ParseFrame(Opera11Frame(rx, m))
            == FrameFields(Opera11Name(rx, m), GroupText(m, 4), Some(GroupText(m, 1)), GroupText(m, 2))
  {
    DecimalHasNoSeparators(GroupText(m, 1));
    DecimalHasNoSeparators(GroupText(m, 2));
    ParseFrameRoundTrip(Opera11Name(rx, m), GroupText(m, 4), GroupText(m, 1), GroupText(m, 2));
  }

  /** An opera10a frame parses back into `fnName()`, the file, the line and an empty column. */
  lemma Opera10aFrameParses(m: Captures)
    requires IsDecimal(GroupText(m, 1))
    requires '@' !in GroupText(m, 2)
    ensures ParseFrame(Opera10aFrame(m))
            == FrameFields(GroupOr(m, 3, Anon) + "()", GroupText(m, 2), Some(GroupText(m, 1)), "")
  {
    DecimalHasNoSeparators(GroupText(m, 1));
    var fn := GroupOr(m, 3, Anon) + "()";
    assert Opera10aFrame(m) == fn + "@" + GroupText(m, 2) + ":" + GroupText(m, 1) + ":" + "";
    ParseFrameRoundTrip(fn, GroupText(m, 2), GroupText(m, 1), "");
  }

  /** An opera9 frame parses back into '{anonymous}()', the file, the line and an empty column. */
  lemma Opera9FrameParses(m: Captures)
    requires IsDecimal(GroupText(m, 1))
    requires '@' !in GroupText(m, 2)
    ensures ParseFrame(Opera9Frame(m)) == FrameFields(AnonCall, GroupText(m, 2), Some(GroupText(m, 1)), "")
  {
    DecimalHasNoSeparators(GroupText(m, 1));
    assert Opera9Frame(m) == AnonCall + "@" + GroupText(m, 2) + ":" + GroupText(m, 1) + ":" + "";
    ParseFrameRoundTrip(AnonCall, GroupText(m, 2), GroupText(m, 1), "");
  }
}
