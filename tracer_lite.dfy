/**
 * tracestack.lite.js: the same formatters and options without name
 * guessing. Its `run` always cuts `shift` lines off the front, `other`
 * included, its entries render as `Line l, Column c of file: func`, and
 * its trace text is one entry per line.
 */
module TracerLite {
  import opened Js
  import opened JsText
  import opened Detect
  import opened Regex
  import opened Frames
  import opened LiveChain
  import opened Formatters
  import opened Tracer

  /** The properties of a lite entry. */
  datatype LiteState = LiteState(func: string, file: string, line: Option<string>, column: string)

  /** What `new StackEntry(text)` of the lite edition holds. */
  function LiteEntrySpec(text: string): LiteState {
    var f := ParseFrame(text);
    LiteState(FuncOrAnon(f.func), f.file, f.line, f.column)
  }

  /** The lite `toString`: an absent line shows as "undefined", an empty column is left out. */
  function LiteRender(s: LiteState): string {
    "Line " + (match s.line case Some(l) => l case None => "undefined")
    + (if s.column == "" then "" else ", Column " + s.column)
    + " of " + s.file + ": " + s.func
  }

  class LiteStackEntry {
    var file: string
    var line: Option<string>
    var column: string
    var func: string

    function State(): LiteState
      reads this
    {
      LiteState(func, file, line, column)
    }

    function ToString(): string
      reads this
    {
      LiteRender(State())
    }

    /** `StackEntry.create(text)` for a string `text`. */
    constructor (text: string)
      ensures State() == LiteEntrySpec(text)
    {
      var f := ParseFrame(text);
      file := f.file;
      line := f.line;
      column := f.column;
      func := FuncOrAnon(f.func);
    }
  }

  /**
   * The lite `StackEntry.create(line)` for any value: one that is no
   * string throws TypeError; a string makes an entry.
   */
  method CreateLiteEntry(v: JsValue) returns (r: Result<LiteStackEntry>)
    ensures r.Err? <==> !v.Str?
    ensures r.Err? ==> r.error == TypeError
    ensures r.Ok? ==> fresh(r.value) && r.value.State() == LiteEntrySpec(v.s)
  {
    var text := CheckLine(v);
    if text.Err? {
      return Err(text.error);
    }
    var entry := new LiteStackEntry(text.value);
    return Ok(entry);
  }

  /**
   * A canonical frame of a named function becomes a lite entry with
   * exactly its parts, and renders as `Line line, Column column of file: func`.
   */
  lemma LiteEntryOfFrame(func: string, file: string, line: string, column: string)
    requires func != ""
    requires '@' !in file && '@' !in line && '@' !in column
    requires ':' !in line && ':' !in column
    ensures LiteEntrySpec(func + "@" + file + ":" + line + ":" + column) == LiteState(func, file, Some(line), column)
    ensures column != "" ==>
      LiteRender(LiteEntrySpec(func + "@" + file + ":" + line + ":" + column))
      == "Line " + line + ", Column " + column + " of " + file + ": " + func
  {
    ParseFrameRoundTrip(func, file, line, column);
  }

  /**
   * A line without '@' or ':' (what the lite `other` writes for a call)
   * renders with an undefined line, the whole text as the column, no file
   * and an anonymous function.
   */
  lemma LiteRenderOfCall(call: string)
    requires call != "" && '@' !in call && ':' !in call
    ensures LiteRender(LiteEntrySpec(call)) == "Line undefined, Column " + call + " of : " + Anon
  {
    ParseBareText(call);
  }

  /** What the lite `run(ex)` turns into entries, or the exception that makes it answer the message. */
  function LiteRunSpec(c: Config, rx: Engine, ex: Option<ErrorLike>, created: ErrorLike, chain: seq<LiveFrame>)
    : Result<seq<string>>
  {
    if c.mode.Inherited? then Err(TypeError)
    else
      match FormatSpec(Lite, c.mode.dialect, rx, ErrorOf(ex, created), chain, PassedLimit(c, Shift(ex)))
      case Err(e) => Err(e)
      case Ok(out) => Ok(LiteCut(c, Shift(ex), out))
  }

  /** `!!!myLimit ? out.slice(shift) : out.slice(shift, limit)`, for every mode. */
  function LiteCut(c: Config, shift: nat, out: seq<string>): seq<string> {
    Slice(out, shift, if c.limit == 0 then |out| else PassedLimit(c, shift))
  }

  /** What the lite `run` answers: the entries, or the message. */
  datatype LiteOutcome = LiteTrace(entries: seq<LiteStackEntry>) | LiteFailure(message: string)

  /** The lite `try` block up to the `map`: the formatter's call and the slice. */
  method LiteRunLines(c: Config, rx: Engine, ex: Option<ErrorLike>, created: ErrorLike, chain: seq<LiveFrame>)
    returns (r: Result<seq<string>>)
    ensures r == LiteRunSpec(c, rx, ex, created, chain)
  {
    if c.mode.Inherited? {
      // the inherited property is no formatter: calling it, or slicing
      // or mapping what it answers, throws
      return Err(TypeError);
    }
    var formatted := Format(Lite, c.mode.dialect, rx, ErrorOf(ex, created), chain, PassedLimit(c, Shift(ex)));
    if formatted.Err? {
      return Err(formatted.error);
    }
    return Ok(LiteCut(c, Shift(ex), formatted.value));
  }

  class LiteStackTracer {
    /** `myLimit` and `myMode` as the full edition normalises them; `guess` is never read. */
    const config: Config

    constructor (options: Options, ourMode: Dialect)
      ensures config == Configure(options, ourMode)
    {
      config := Configure(options, ourMode);
    }

    /** `run(ex)`: an entry for each line `LiteRunSpec` gives, in order, or the message. */
    method Run(rx: Engine, ex: Option<ErrorLike>, created: ErrorLike, chain: seq<LiveFrame>) returns (out: LiteOutcome)
      ensures out.LiteFailure? <==> LiteRunSpec(config, rx, ex, created, chain).Err?
      ensures out.LiteFailure? ==> out.message == FailureMessage
      ensures out.LiteTrace? ==>
        var lines := LiteRunSpec(config, rx, ex, created, chain).value;
        |out.entries| == |lines|
        && forall k :: 0 <= k < |lines| ==> fresh(out.entries[k]) && out.entries[k].State() == LiteEntrySpec(lines[k])
    {
      var lines := LiteRunLines(config, rx, ex, created, chain);
      if lines.Err? {
        return LiteFailure(FailureMessage);
      }
      var entries := MakeLiteEntries(lines.value);
      return LiteTrace(entries);
    }
  }

  /** `out.map(v => new StackEntry(v))`. */
  method MakeLiteEntries(lines: seq<string>) returns (entries: seq<LiteStackEntry>)
    ensures |entries| == |lines|
    ensures forall k :: 0 <= k < |lines| ==> fresh(entries[k]) && entries[k].State() == LiteEntrySpec(lines[k])
  {
    entries := [];
    var i := 0;
    while i < |lines|
      invariant 0 <= i <= |lines| && |entries| == i
      invariant forall k :: 0 <= k < i ==> fresh(entries[k]) && entries[k].State() == LiteEntrySpec(lines[k])
      decreases |lines| - i
    {
      var entry := new LiteStackEntry(lines[i]);
      entries := entries + [entry];
      i := i + 1;
    }
  }

  /**
   * In `other` mode the lite `run` never fails and keeps the calls from
   * index `shift` on: without an `ex`, the three innermost calls of the
   * chain are dropped, and at most ten calls are seen at all.
   */
  lemma LiteOtherRun(c: Config, rx: Engine, ex: Option<ErrorLike>, created: ErrorLike, chain: seq<LiveFrame>)
    requires c.mode == Known(Other)
    ensures LiteRunSpec(c, rx, ex, created, chain).Ok?
    ensures var lines := LiteRunSpec(c, rx, ex, created, chain).value;
      |lines| + Shift(ex) <= 10
      && forall k :: 0 <= k < |lines| ==>
           Shift(ex) + k < |chain| && lines[k] == CallText(rx, chain[Shift(ex) + k])
  {
    LiteOtherLines(c, rx, ex, created, chain);
    LiteOtherCut(c, rx, Shift(ex), chain);
  }

  /** In `other` mode the lite `run` cuts what the lite `other` formatter writes. */
  lemma LiteOtherLines(c: Config, rx: Engine, ex: Option<ErrorLike>, created: ErrorLike, chain: seq<LiveFrame>)
    requires c.mode == Known(Other)
    ensures LiteRunSpec(c, rx, ex, created, chain) == Ok(LiteCut(c, Shift(ex), LiteOtherSpec(rx, chain)))
  {
    assert FormatSpec(Lite, Other, rx, ErrorOf(ex, created), chain, PassedLimit(c, Shift(ex))) == Ok(LiteOtherSpec(rx, chain));
  }

  /** The lite cut of the lite `other` output, for a shift of at most three. */
  lemma LiteOtherCut(c: Config, rx: Engine, shift: nat, chain: seq<LiveFrame>)
    requires shift <= 3
    ensures var lines := LiteCut(c, shift, LiteOtherSpec(rx, chain));
      |lines| + shift <= 10
      && forall k :: 0 <= k < |lines| ==> shift + k < |chain| && lines[k] == CallText(rx, chain[shift + k])
  {
    var out := LiteOtherSpec(rx, chain);
    var lines := LiteCut(c, shift, out);
    LiteOtherShape(rx, chain);
    SliceWithin(out, shift, if c.limit == 0 then |out| else PassedLimit(c, shift), 10);
    forall k | 0 <= k < |lines|
      ensures shift + k < |chain| && lines[k] == CallText(rx, chain[shift + k])
    {
      assert lines[k] == out[shift + k];
    }
  }

  /** Each lite entry's rendering, in order. */
  function LiteRenders(states: seq<LiteState>): (r: seq<string>)
    ensures |r| == |states|
    ensures forall k :: 0 <= k < |states| ==> r[k] == LiteRender(states[k])
  {
    seq(|states|, k requires 0 <= k < |states| => LiteRender(states[k]))
  }

  /** The lite `out.toString()`: the renderings joined by line breaks. */
  function LiteTraceText(states: seq<LiteState>): string {
    Join(LiteRenders(states), "\n")
  }

  /**
   * The text split on line breaks: one empty line without entries, and
   * otherwise the lines of each rendering in turn; when no rendering
   * holds a line break, exactly one line per entry.
   */
  lemma LiteTraceTextLines(states: seq<LiteState>)
    ensures |states| == 0 ==> Split(LiteTraceText(states), '\n') == [""]
    ensures |states| >= 1 ==> Split(LiteTraceText(states), '\n') == SplitEach(LiteRenders(states), '\n')
    ensures |states| >= 1 && (forall k :: 0 <= k < |states| ==> '\n' !in LiteRender(states[k])) ==>
      Split(LiteTraceText(states), '\n') == LiteRenders(states)
  {
    var renders := LiteRenders(states);
    if |states| >= 1 {
      SplitJoinEach(renders, '\n');
      if forall k :: 0 <= k < |states| ==> '\n' !in LiteRender(states[k]) {
        SplitEachNoSeparator(renders, '\n');
      }
    }
  }
}
