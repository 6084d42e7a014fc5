/**
 * `StackTracer` of tracestack.js: a tracer made from options (guess,
 * limit, mode), whose `run` asks the chosen formatter for canonical frame
 * lines, cuts off the tracer's own frames and the frames past the limit,
 * and makes a `StackEntry` of each line; any throw on the way turns the
 * whole result into one fixed message.
 */
module Tracer {
  import opened Js
  import opened JsText
  import opened Detect
  import opened LiveChain
  import opened NameGuess
  import opened Entries
  import opened Formatters

  /** The options object; an absent property is None, 0 or "" (all falsy). */
  datatype Options = Options(guess: Option<bool>, limit: int, mode: string)

  /**
   * The mode a tracer runs in: a formatter's dialect, or an inherited
   * property of the table, which is no formatter at all.
   */
  datatype Mode = Known(dialect: Dialect) | Inherited(name: string)

  /** What `create` keeps: `myGuess`, `myLimit` and `myMode`. */
  datatype Config = Config(guess: bool, limit: nat, mode: Mode)

  /** `create(options)`'s normalisation; `ourMode` is the dialect autodetected once at load time. */
  function Configure(o: Options, ourMode: Dialect): Config {
    var guess := match o.guess case None => true case Some(b) => b;
    var limit := if o.limit != 0 && o.limit > 0 then o.limit else 0;
    var mode :=
      if o.mode != "" && DialectNamed(o.mode).Some? then Known(DialectNamed(o.mode).value)
      else if o.mode != "" && o.mode in InheritedNames then Inherited(o.mode)
      else Known(ourMode);
    Config(guess, limit, mode)
  }

  /**
   * Guessing is on unless switched off; only a positive limit is kept; a
   * mode is taken only when it names a formatter (or an inherited
   * property), and any other mode, the empty one included, falls back to
   * the autodetected dialect.
   */
  lemma ConfigureOptions(o: Options, ourMode: Dialect)
    ensures var c := Configure(o, ourMode);
      (c.guess <==> o.guess != Some(false))
      && (c.limit > 0 <==> o.limit > 0)
      && (c.limit > 0 ==> c.limit == o.limit)
      && (forall d: Dialect :: o.mode == DialectName(d) ==> c.mode == Known(d))
      && (c.mode.Known? && c.mode.dialect != ourMode ==> DialectName(c.mode.dialect) == o.mode)
      && (c.mode.Inherited? <==> o.mode in InheritedNames)
      && (DialectNamed(o.mode).None? && o.mode !in InheritedNames ==> c.mode == Known(ourMode))
  {
    var c := Configure(o, ourMode);
    forall d: Dialect | o.mode == DialectName(d)
      ensures c.mode == Known(d)
    {
      assert DialectNamed(o.mode) == Some(d);
      NamesAreNotInherited(d);
    }
    if c.mode.Inherited? {
      assert o.mode in InheritedNames;
    } else if o.mode in InheritedNames {
      assert DialectNamed(o.mode).Some?;
      NamesAreNotInherited(DialectNamed(o.mode).value);
    }
  }

  /** No formatter is named like an inherited property. */
  lemma NamesAreNotInherited(d: Dialect)
    ensures DialectName(d) != "" && DialectName(d) !in InheritedNames
  {
  }

  /** `!!ex ? 0 : 3`: the frames of the tracer's own calls are dropped only from an error it made itself. */
  function Shift(ex: Option<ErrorLike>): nat {
    if ex.Some? then 0 else 3
  }

  /** `!!!myLimit ? 0 : myLimit + shift`: the limit the formatter is given. */
  function PassedLimit(c: Config, shift: nat): nat {
    if c.limit == 0 then 0 else c.limit + shift
  }

  /**
   * What `run` slices out of the formatter's lines: `other`'s first
   * `myLimit`, or, for every other dialect, from `shift` on, up to the
   * passed limit.
   */
  function Cut(c: Config, d: Dialect, shift: nat, out: seq<string>): seq<string> {
    if d == Other then (if c.limit == 0 then out else Slice(out, 0, c.limit))
    else if c.limit == 0 then Slice(out, shift, |out|)
    else Slice(out, shift, PassedLimit(c, shift))
  }

  /** `err` outside `other` mode: the error given, or the one the tracer makes. */
  function ErrorOf(ex: Option<ErrorLike>, created: ErrorLike): ErrorLike {
    if ex.Some? then ex.value else created
  }

  /**
   * What the formatter of a known mode answers inside `run`. `created` is
   * the exception the tracer makes when no `ex` is given; `chain` the live
   * callers above `run`'s caller.
   */
  function Formatted(edition: Edition, c: Config, env: Env, ex: Option<ErrorLike>, created: ErrorLike, chain: seq<LiveFrame>)
    : Result<seq<string>>
    requires c.mode.Known?
  {
    FormatSpec(edition, c.mode.dialect, env.rx, ErrorOf(ex, created), chain, PassedLimit(c, Shift(ex)))
  }

  /** The lines `run(ex)` turns into entries, or the exception that makes it answer the message. */
  function RunSpec(c: Config, env: Env, ex: Option<ErrorLike>, created: ErrorLike, chain: seq<LiveFrame>)
    : Result<seq<string>>
  {
    if c.mode.Inherited? then Err(TypeError)
    else AfterFormat(c, c.mode.dialect, Shift(ex), Formatted(Full, c, env, ex, created, chain))
  }

  /** The rest of the `try` block: a throw propagates, an answer is cut. */
  function AfterFormat(c: Config, d: Dialect, shift: nat, formatted: Result<seq<string>>): Result<seq<string>> {
    match formatted
    case Err(e) => Err(e)
    case Ok(out) => Ok(Cut(c, d, shift, out))
  }

  const FailureMessage: string := "traceStack may not be configured to work properly with this environment"

  /** What `run` answers: the entries, or the message. */
  datatype Outcome = Trace(entries: seq<StackEntry>) | Failure(message: string)

  class StackTracer {
    const config: Config

    /** `new StackTracer(options)`. */
    constructor (options: Options, ourMode: Dialect)
      ensures config == Configure(options, ourMode)
    {
      config := Configure(options, ourMode);
    }

    /**
     * `run(ex)`: an entry for each line `RunSpec` gives, made in order and
     * guessed as configured, or the message when anything throws.
     */
    method Run(env: Env, cache: SourceCache, ex: Option<ErrorLike>, created: ErrorLike, chain: seq<LiveFrame>)
      returns (out: Outcome)
      requires cache.Valid(env.fetch)
      modifies cache
      ensures cache.Valid(env.fetch)
      ensures out.Failure? <==> RunSpec(config, env, ex, created, chain).Err?
      ensures out.Failure? ==> out.message == FailureMessage
      ensures out.Trace? ==>
        var lines := RunSpec(config, env, ex, created, chain).value;
        |out.entries| == |lines|
        && (forall k :: 0 <= k < |lines| ==>
              fresh(out.entries[k]) && out.entries[k].State() == EntrySpec(env, lines[k], config.guess))
        && cache.sources == CacheAfterEntries(env, old(cache.sources), lines, config.guess)
      ensures out.Failure? ==> cache.sources == old(cache.sources) && cache.fetched == old(cache.fetched)
      ensures old(cache.fetched) <= cache.fetched
    {
      var lines := RunLines(config, env, ex, created, chain);
      if lines.Err? {
        return Failure(FailureMessage);
      }
      var entries := MakeEntries(env, cache, lines.value, config.guess);
      return Trace(entries);
    }
  }

  /** The `try` block of `run` up to the `map`: the formatter's call and the slice. */
  method RunLines(c: Config, env: Env, ex: Option<ErrorLike>, created: ErrorLike, chain: seq<LiveFrame>)
    returns (r: Result<seq<string>>)
    ensures r == RunSpec(c, env, ex, created, chain)
  {
    if c.mode.Inherited? {
      // the inherited property is no formatter: calling it, or slicing
      // or mapping what it answers, throws
      return Err(TypeError);
    }
    var d := c.mode.dialect;
    var shift := Shift(ex);
    var formatted := Format(Full, d, env.rx, ErrorOf(ex, created), chain, PassedLimit(c, shift));
    if formatted.Err? {
      return Err(formatted.error);
    }
    return Ok(Cut(c, d, shift, formatted.value));
  }

  /** Every entry of `before` is kept, with its lines. */
  ghost predicate Extends(before: map<string, seq<string>>, after: map<string, seq<string>>) {
    forall url :: url in before ==> url in after && after[url] == before[url]
  }

  /** `sourceCache` after an entry is made of each line in turn. */
  function CacheAfterEntries(env: Env, sources: map<string, seq<string>>, lines: seq<string>, guess: bool)
    : map<string, seq<string>>
  {
    if lines == [] then sources
    else
      var before := CacheAfterEntries(env, sources, lines[..|lines| - 1], guess);
      CacheAfterEntry(env, before, lines[|lines| - 1], guess)
  }

  /** Making entries only adds sources, keeping every cached one, and adds none when guessing is off. */
  lemma {:induction false} CacheOnlyGrows(env: Env, sources: map<string, seq<string>>, lines: seq<string>, guess: bool)
    ensures Extends(sources, CacheAfterEntries(env, sources, lines, guess))
    ensures !guess ==> CacheAfterEntries(env, sources, lines, guess) == sources
    decreases |lines|
  {
    if lines != [] {
      CacheOnlyGrows(env, sources, lines[..|lines| - 1], guess);
    }
  }

  /** What the entries of `lines` hold, in order. */
  function EntrySpecs(env: Env, lines: seq<string>, guess: bool): (r: seq<EntryState>)
    ensures |r| == |lines|
  {
    if lines == [] then []
    else EntrySpecs(env, lines[..|lines| - 1], guess) + [EntrySpec(env, lines[|lines| - 1], guess)]
  }

  lemma {:induction false} EntrySpecsAt(env: Env, lines: seq<string>, guess: bool)
    ensures forall k :: 0 <= k < |lines| ==> EntrySpecs(env, lines, guess)[k] == EntrySpec(env, lines[k], guess)
    decreases |lines|
  {
    if lines != [] {
      var n := |lines| - 1;
      var earlier := EntrySpecs(env, lines[..n], guess);
      EntrySpecsAt(env, lines[..n], guess);
      assert EntrySpecs(env, lines, guess) == earlier + [EntrySpec(env, lines[n], guess)];
      forall k | 0 <= k < |lines|
        ensures EntrySpecs(env, lines, guess)[k] == EntrySpec(env, lines[k], guess)
      {
        if k < n {
          assert lines[..n][k] == lines[k];
        }
      }
    }
  }

  /** `out.map(v => new StackEntry(v, myGuess))`. */
  method MakeEntries(env: Env, cache: SourceCache, lines: seq<string>, guess: bool) returns (entries: seq<StackEntry>)
    requires cache.Valid(env.fetch)
    modifies cache
    ensures cache.Valid(env.fetch)
    ensures |entries| == |lines|
    ensures forall k :: 0 <= k < |lines| ==> fresh(entries[k])
    ensures forall k :: 0 <= k < |lines| ==> entries[k].State() == EntrySpec(env, lines[k], guess)
    ensures cache.sources == CacheAfterEntries(env, old(cache.sources), lines, guess)
    ensures old(cache.fetched) <= cache.fetched
  {
    entries := MapEntries(env, cache, lines, guess);
    EntrySpecsAt(env, lines, guess);
  }

  /** The `map` over all lines but the last, then the entry of the last. */
  method MapEntries(env: Env, cache: SourceCache, lines: seq<string>, guess: bool) returns (entries: seq<StackEntry>)
    requires cache.Valid(env.fetch)
    modifies cache
    ensures cache.Valid(env.fetch)
    ensures |entries| == |lines|
    ensures forall k :: 0 <= k < |lines| ==> fresh(entries[k])
    ensures forall k :: 0 <= k < |lines| ==> entries[k].State() == EntrySpecs(env, lines, guess)[k]
    ensures cache.sources == CacheAfterEntries(env, old(cache.sources), lines, guess)
    ensures old(cache.fetched) <= cache.fetched
    decreases |lines|
  {
    if lines == [] {
      return [];
    }
    var n := |lines| - 1;
    var earlier := MapEntries(env, cache, lines[..n], guess);
    var entry := new StackEntry(lines[n], guess, env, cache);
    entries := earlier + [entry];
  }

  /**
   * Past the formatter's call, `run` fails exactly when the formatter
   * threw; otherwise it keeps the lines from index `shift` of the
   * formatter's output (from its start for `other`), in order: as many as
   * there are, or `myLimit` of them when there are more.
   */
  lemma RunShape(c: Config, d: Dialect, shift: nat, formatted: Result<seq<string>>)
    ensures AfterFormat(c, d, shift, formatted).Err? <==> formatted.Err?
    ensures formatted.Ok? ==>
      var out := formatted.value;
      var from := if d == Other then 0 else shift;
      var lines := AfterFormat(c, d, shift, formatted).value;
      (c.limit > 0 ==> |lines| == if |out| <= from then 0 else Min(c.limit, |out| - from))
      && (c.limit == 0 ==> |lines| == if |out| <= from then 0 else |out| - from)
      && forall k :: 0 <= k < |lines| ==> from + k < |out| && lines[k] == out[from + k]
  {
    if formatted.Ok? {
      CutShape(c, d, shift, formatted.value);
    }
  }

  /**
   * The cut keeps the lines from index `shift` (0 for `other`) of the
   * output, in order: all of them without a limit, and `myLimit` of them
   * when there are more.
   */
  lemma CutShape(c: Config, d: Dialect, shift: nat, out: seq<string>)
    ensures var from := if d == Other then 0 else shift;
      var lines := Cut(c, d, shift, out);
      (c.limit > 0 ==> |lines| == if |out| <= from then 0 else Min(c.limit, |out| - from))
      && (c.limit == 0 ==> |lines| == if |out| <= from then 0 else |out| - from)
      && forall k :: 0 <= k < |lines| ==> from + k < |out| && lines[k] == out[from + k]
  {
  }

  /**
   * Whatever the error, an opera10b tracer, and an opera10a or opera9
   * tracer with a limit, answer only the message.
   */
  lemma OperaTracersFail(c: Config, env: Env, ex: Option<ErrorLike>, created: ErrorLike, chain: seq<LiveFrame>)
    requires c.mode == Known(Opera10b) || (c.limit > 0 && (c.mode == Known(Opera10a) || c.mode == Known(Opera9)))
    ensures RunSpec(c, env, ex, created, chain).Err?
  {
    FormatThrows(Full, c.mode.dialect, env.rx, ErrorOf(ex, created), chain, PassedLimit(c, Shift(ex)));
  }

  /** A tracer in `other` mode never fails, and keeps at most ten entries. */
  lemma OtherTracerSucceeds(c: Config, env: Env, ex: Option<ErrorLike>, created: ErrorLike, chain: seq<LiveFrame>)
    requires c.mode == Known(Other)
    ensures RunSpec(c, env, ex, created, chain).Ok?
    ensures |RunSpec(c, env, ex, created, chain).value| <= 10
  {
    OtherFormatted(c, env, ex, created, chain);
    OtherShape(env.rx, chain, PassedLimit(c, Shift(ex)));
    CutShape(c, Other, Shift(ex), OtherSpec(env.rx, chain, PassedLimit(c, Shift(ex))));
  }

  /** In `other` mode the formatter walks the live chain. */
  lemma OtherFormatted(c: Config, env: Env, ex: Option<ErrorLike>, created: ErrorLike, chain: seq<LiveFrame>)
    requires c.mode == Known(Other)
    ensures Formatted(Full, c, env, ex, created, chain) == Ok(OtherSpec(env.rx, chain, PassedLimit(c, Shift(ex))))
  {
  }

  /** Each line after a tab. */
  function Indented(ys: seq<string>): (r: seq<string>)
    ensures |r| == |ys|
    ensures forall k :: 0 <= k < |ys| ==> r[k] == "\t" + ys[k]
  {
    if ys == [] then [] else ["\t" + ys[0]] + Indented(ys[1..])
  }

  /** Each entry's rendering, in order. */
  function Renders(states: seq<EntryState>): (r: seq<string>)
    ensures |r| == |states|
    ensures forall k :: 0 <= k < |states| ==> r[k] == Render(states[k])
  {
    seq(|states|, k requires 0 <= k < |states| => Render(states[k]))
  }

  /** `out.toString(msg)`: the message and a tab-indented line per entry. */
  function TraceText(states: seq<EntryState>, msg: string): string {
    (if msg != "" then msg + "\n\t" else "") + Join(Renders(states), "\n\t")
  }

  /** The pieces the text is made of: the message, if any, then every rendering but the first after a tab. */
  function TracePieces(states: seq<EntryState>, msg: string): seq<string>
    requires msg != "" || |states| >= 1
  {
    if msg != "" then [msg] + Indented(Renders(states))
    else [Renders(states)[0]] + Indented(Renders(states)[1..])
  }

  /** Joining by "\n\t" is joining by "\n" with every piece but the first after a tab. */
  lemma {:induction false} JoinIndented(first: string, ys: seq<string>)
    ensures Join([first] + ys, "\n\t") == Join([first] + Indented(ys), "\n")
    decreases |ys|
  {
    if ys == [] {
      assert [first] + ys == [first] + Indented(ys) == [first];
    } else {
      var tail := Indented(ys[1..]);
      JoinIndented(ys[0], ys[1..]);
      assert ([first] + ys)[1..] == [ys[0]] + ys[1..];
      assert ([first] + Indented(ys))[1..] == ["\t" + ys[0]] + tail;
      assert ([ys[0]] + tail)[1..] == tail;
      JoinPrefixFirst("\t", [ys[0]] + tail, "\n");
      assert "\n\t" == "\n" + "\t";
    }
  }

  /** A prefix on the first piece is a prefix of the join. */
  lemma JoinPrefixFirst(p: string, xs: seq<string>, sep: string)
    requires |xs| >= 1
    ensures Join([p + xs[0]] + xs[1..], sep) == p + Join(xs, sep)
  {
    var ys := [p + xs[0]] + xs[1..];
    assert ys[1..] == xs[1..];
  }

  /**
   * The text split on line breaks. Without entries it is the message's
   * lines and a lone tab, or one empty line without a message. With
   * entries it is the lines of each piece in turn: when neither the
   * message nor any rendering holds a line break, one line per entry,
   * each after a tab, below the message.
   */
  lemma TraceTextLines(states: seq<EntryState>, msg: string)
    ensures |states| == 0 ==>
      Split(TraceText(states, msg), '\n') == if msg != "" then Split(msg, '\n') + ["\t"] else [""]
    ensures |states| >= 1 ==> Split(TraceText(states, msg), '\n') == SplitEach(TracePieces(states, msg), '\n')
    ensures |states| >= 1 && '\n' !in msg && (forall k :: 0 <= k < |states| ==> '\n' !in Render(states[k])) ==>
      Split(TraceText(states, msg), '\n') == TracePieces(states, msg)
  {
    if |states| == 0 {
      TraceTextEmpty(msg);
    } else {
      var pieces := TracePieces(states, msg);
      TraceTextJoinsPieces(states, msg);
      SplitJoinEach(pieces, '\n');
      if '\n' !in msg && (forall k :: 0 <= k < |states| ==> '\n' !in Render(states[k])) {
        forall k | 0 <= k < |pieces|
          ensures '\n' !in pieces[k]
        {
          if k > 0 && msg != "" {
            assert pieces[k] == "\t" + Render(states[k - 1]);
          } else if k > 0 {
            assert pieces[k] == "\t" + Render(states[k]);
          }
        }
        SplitEachNoSeparator(pieces, '\n');
      }
    }
  }

  /** Without entries the text is the message and "\n\t", or nothing. */
  lemma TraceTextEmpty(msg: string)
    ensures Split(TraceText([], msg), '\n') == if msg != "" then Split(msg, '\n') + ["\t"] else [""]
  {
    assert Join(Renders([]), "\n\t") == "";
    if msg != "" {
      assert TraceText([], msg) == msg + ['\n'] + "\t";
      SplitAround(msg, "\t", '\n');
      SplitNoSeparator("\t", '\n');
    }
  }

  /** With entries the text is its pieces joined by line breaks. */
  lemma TraceTextJoinsPieces(states: seq<EntryState>, msg: string)
    requires |states| >= 1
    ensures TraceText(states, msg) == Join(TracePieces(states, msg), "\n")
  {
    var renders := Renders(states);
    var first := if msg != "" then msg else renders[0];
    var rest := if msg != "" then renders else renders[1..];
    if msg != "" {
      JoinAppend([msg], renders, "\n\t");
    } else {
      assert renders == [renders[0]] + renders[1..];
    }
    assert TraceText(states, msg) == Join([first] + rest, "\n\t");
    JoinIndented(first, rest);
  }
}
