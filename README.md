# traceStack stack-trace normalisation, modelled in Dafny

traceStack turns the stack information of a JavaScript error into a list
of stack entries, whichever browser produced it. It exists in two editions:
`tracestack.js` (the full one) and `tracestack.lite.js`. Both do the same
steps:

1. **Dialect detection** (`StackParser.autodetect`). Which of the error's
   properties are truthy picks one of nine dialects: chrome, safari, ie,
   firefox, opera9, opera10a, opera10b, opera11 or other.
2. **Formatting** (the `formatters` table). Each dialect's formatter
   rewrites the raw text into canonical frame lines `func@file:line:column`.
   - chrome, safari, ie and firefox use the generic `StackParser.parse`:
     `pre` rewrites, a line limit, `parsers` rewrites, a split, and a `post`
     step.
   - The Opera formatters walk every second line of `stacktrace` or
     `message`.
   - `other` walks the live chain of callers.
3. **The tracer** (`StackTracer.create` and `run`). It normalises its
   options (guess, limit, mode), calls the formatter and cuts off its own
   frames and the frames past the limit. It turns each line into a
   `StackEntry`. Any exception along the way turns the whole answer into
   one fixed message.
4. **Entries** (`StackEntry`). An entry splits a line on its last '@' and
   its last two ':'. It renders as `at func (file:line:column)` in the full
   edition and as `Line l, Column c of file: func` in the lite one.
5. **Name guessing** (full edition only). The name of an anonymous
   function is found by fetching its source file through a memoising cache
   and scanning backwards from its line for one of three naming patterns.
6. **Argument rendering** (`stringifyArguments`). This renders the
   arguments of live calls for `other`.

Regular expressions are not interpreted. Every pattern is a constant that
holds its literal source text and flags. The host's `exec` and `replace`
are a parameter (`Regex.Engine`), so each proof holds for any regex engine.
The network is a parameter `fetch` (URL to text, '' on failure). The page's
`location` is a parameter too. So are the live caller chain and the error
that the tracer would create itself.

Modules, one file each:
- `Js`, `JsText`: the JavaScript values and string operations used.
- `Regex`: patterns and the engine parameter.
- `Detect`: error properties, dialects and detection.
- `StackParser`: the generic formatter.
- `Opera`: the Opera formatters.
- `LiveChain`: the `other` formatter of both editions.
- `Arguments`: argument rendering.
- `Frames`: the frame-line splitting.
- `NameGuess`: `isSameDomain`, `findFunctionName` and the source cache.
- `Entries`: the full `StackEntry`.
- `Formatters`: the table.
- `Tracer`: options and the full `run`.
- `TracerLite`: the lite entry and `run`.

The two files are the same from `StackParser` to the end of the Opera formatters
(tracestack.js:91-301 and tracestack.lite.js:91-302), and `stringifyArguments`
(tracestack.js:605-633, tracestack.lite.js:496-524) and the limit and mode
options (tracestack.js:347-355, tracestack.lite.js:342-350) match too. So
the members for those parts model both editions, and the table below cites
the full edition for them.

Where the code does something other than what its documentation promises,
the model follows the code:
- `isSameDomain` only refuses URLs whose first occurrence of the host name
  is at index 1. So a URL on another host passes and its source is fetched
  (`NameGuess.ForeignHostPasses`). The documentation says cross-origin
  sources are never fetched.
- `opera10b` pushes to and returns an undeclared `result`, so it always
  throws. `opera10a` and `opera9` read an undeclared `results` whenever a
  limit is given, so they throw then. The `lines.map(...)` calls that were
  meant to blank the odd lines throw their result away; the lines in
  between never matter (`Opera.EvenLinesOnly`).
- A frame line without '@' or ':' does not fail to parse. It becomes an
  anonymous entry whose column is the whole line and whose line is
  undefined (`Frames.ParseBareText`). This is all that the lite `other`
  formatter's `name(args)` lines ever give
  (`TracerLite.LiteRenderOfCall`).
- When no naming pattern matches, the scan answers the name "(?)", which
  is truthy. So the entry is named "(?)", not '{anonymous}'.
- The lite `run` drops `shift` lines from the front in `other` mode too.
  Without an `ex` it loses the three innermost calls of the live chain
  (`TracerLite.LiteOtherRun`).
- A `mode` that is a property every object inherits (`toString`,
  `constructor`, ...) passes the `mode in formatters` test. Such a tracer
  then always answers the failure message (`Tracer.ConfigureOptions`,
  `Tracer.StackTracer.Run`).
- The full trace text joins entries by "\n\t" after an optional message.
  It is not one entry per line.

## Model

| member | source | states |
|---|---|---|
| JsText.SplitLines | tracestack.js:162 | splitting on NEW_LINES gives at least one piece, and no piece holds a line break |
| JsText.SplitLinesRebuild | tracestack.js:162 | splitting on NEW_LINES loses only the breaks: there is one piece more than there are matches of the pattern, and putting each match back between its two pieces rebuilds the text |
| JsText.SplitLinesOnNewlines | tracestack.js:162 | on text whose only breaks are '\n', the NEW_LINES split is the '\n' split, and joining its pieces with '\n' gives the text back |
| JsText.IndexOf | tracestack.js:131 | `indexOf` answers the first index where the text occurs, or -1 exactly when it occurs nowhere |
| JsText.Slice | tracestack.js:381 | `slice(start, end)` holds the items from `start` up to the clamped end, in order, and nothing when the end is not past the start |
| JsText.ToLineNumber | tracestack.js:523-526 | a line number is a number exactly when it is a string of decimal digits, and then it is the value of those digits; anything else is NaN |
| JsText.DecimalRoundTrip | tracestack.js:628 | reading a rendered non-negative integer back as a decimal gives the integer |
| Detect.DialectNamed | tracestack.js:350 | a name maps to the dialect whose formatter key it is, and to every dialect whose key it is |
| Detect.Autodetect | tracestack.js:120-147 | with a stack the dialect is never `other`; chrome is chosen exactly when there is a stack and either `arguments` is truthy or `sourceURL`, `number`, `fileName` are falsy and not both `message` and `stacktrace` are truthy; safari, ie, firefox and the opera10b/opera11 pair are each chosen exactly when the earlier markers are falsy and theirs is truthy; "called from line" separates opera11 from opera10b; without a stack only `message` with `opera#sourceloc` avoids `other`, giving opera9 or opera10a |
| Detect.Opera9ByNewlineCount | tracestack.js:138-144 | without a stack, opera9 is chosen exactly when there is no stacktrace, or the message holds a newline and more newlines than the stacktrace |
| StackParser.ParsePhase | tracestack.js:151-159 | the loop applies every rule once, in list order; an empty list leaves the text unchanged |
| StackParser.ApplyRulesConcat | tracestack.js:151-159 | rewriting with two rule lists in turn is rewriting with their concatenation |
| StackParser.ApplyStackLimitLines | tracestack.js:161-163 | with limit 0 the text is unchanged; otherwise its lines are the first `limit + 1` lines of the input, so at most `limit + 1` |
| StackParser.ApplyPost | tracestack.js:201-206 | ie's `post` drops exactly the first line; firefox's keeps the length and appends ':' to each line; the default keeps the lines |
| StackParser.ParseSpec | tracestack.js:102-109 | `parse` throws TypeError exactly when `stack` is falsy |
| StackParser.Parse | tracestack.js:102-109 | the method computes rewrite, limit, rewrite, split and `post` as specified |
| Opera.LineFrame | tracestack.js:220 | an empty line yields no frame |
| Opera.FramesBeforeBound | tracestack.js:219-225 | the walk yields at most one frame per examined line |
| Opera.EvenLineFramesBound | tracestack.lite.js:209-228 | an Opera walk yields at most half the lines, rounded up |
| Opera.OperaOutcomes | tracestack.js:209-301 | an Opera walk throws TypeError exactly when the property it splits is missing, and ReferenceError exactly when opera10a or opera9 has a limit; otherwise it yields at most ⌈n/2⌉ frames |
| Opera.Opera11Format | tracestack.js:209-228 | the loop over lines 0, 2, 4, ... collects the frame of each non-empty matching line, in order, and ignores the limit |
| Opera.Opera10aFormat | tracestack.js:254-277 | as opera11 over `stacktrace` with opera10a's frames, but any limit throws ReferenceError |
| Opera.Opera9Format | tracestack.js:279-301 | as opera10a over the lines of `message`, with an anonymous frame per match |
| Opera.Opera10bFormat | tracestack.js:230-252 | every call throws: TypeError without a stacktrace, ReferenceError otherwise |
| Opera.EvenLinesOnly | tracestack.js:217 | the odd lines never matter: lines that agree at even indices give the same frames |
| Opera.Opera11FrameParses | tracestack.js:221-223 | an opera11 frame with decimal line and column parses back into its function name, file, line and column |
| Opera.Opera10aFrameParses | tracestack.js:271-272 | an opera10a frame parses back into `fnName()`, its file and line, and an empty column |
| Opera.Opera9FrameParses | tracestack.js:297 | an opera9 frame parses back into '{anonymous}()', its file and line, and an empty column |
| LiveChain.MaxStackSize | tracestack.js:305 | the frame cap is between 1 and 10, and is the limit when that is between 1 and 9 |
| LiveChain.Depth | tracestack.js:306 | the walk visits a prefix of the chain no longer than the cap, all with arguments, and stops below the cap only at the end of the chain or at a call without arguments |
| LiveChain.DepthUnique | tracestack.js:306 | only one count meets the walk's three stopping conditions |
| LiveChain.OtherFormat | tracestack.js:303-315 | the full `other` loop writes what `OtherSpec` says |
| LiveChain.OtherShape | tracestack.js:303-315 | the full `other` writes at most the cap: a `name(args)@::` frame per visited call, in chain order, then "global code@::" exactly when fewer calls than the cap were visited |
| LiveChain.OtherFramesParse | tracestack.js:309-313 | every frame the full `other` writes parses into its call text, or "global code", with an empty file, line and column |
| LiveChain.LiteOtherFormat | tracestack.lite.js:304-313 | the lite `other` loop writes what `LiteOtherSpec` says |
| LiveChain.LiteOtherShape | tracestack.lite.js:304-313 | the lite `other` writes at most ten `name(args)` lines, one per call in chain order, all with arguments, and stops below ten only at the end of the chain or a call without arguments |
| Arguments.StringifyArguments | tracestack.js:605-633 | the loop, recursing into arrays and filling the holes it leaves with "", yields the renderings of the arguments up to the last one of a listed kind, joined by ',' |
| Arguments.AssignedLength | tracestack.js:608-631 | the result array ends at the last argument of a listed kind: every argument after it is of another kind, and it is empty when there is none |
| Arguments.StringifySingle | tracestack.js:619 | one item, as the slices of a long array hold, renders without a separator |
| Arguments.StringifyConcat | tracestack.js:632 | arguments render independently: a list ending in a listed value and a list holding one join with one ',' |
| Arguments.TrailingHolesDropped | tracestack.js:608-632 | arguments of other kinds after the last listed one change nothing, not even by a ',' |
| Arguments.TrailingHoleExample | tracestack.js:608-632 | the arguments 1 and `true` render as "1" |
| Arguments.LongArrayShowsEnds | tracestack.js:618-619 | an array of three or more items shows only its first and last item |
| Arguments.StringifySplits | tracestack.js:632 | with no argument of a listed kind the text is empty; otherwise, when no rendering holds ',', splitting the text on ',' gives back the renderings up to the last listed argument, holes as "" |
| Arguments.NumbersRoundTrip | tracestack.js:627-628 | non-negative numbers survive rendering: split on ',' and read as decimals, the text gives back the numbers |
| Frames.FuncOrAnon | tracestack.js:457 | an empty function name becomes '{anonymous}' and any other is kept |
| Frames.LocationHasNoAt | tracestack.js:431-432 | the location never holds '@' |
| Frames.LastAtSeparates | tracestack.js:431-433 | the function part, '@' and the location make up the line; without '@' the function is empty and the whole line is the location |
| Frames.ParseFrameRoundTrip | tracestack.js:431-437 | `func@file:line:column` parses back into exactly those parts when file, line and column hold no '@' and line and column hold no ':' |
| Frames.ParseFrameExample | tracestack.js:431-437 | "foo@http://x/y.js:12:5" gives "foo", "http://x/y.js", "12" and "5" |
| Frames.LastAtWinsExample | tracestack.js:431-433 | "a@b@http://x/y.js:1:1" gives the function "a@b" |
| Frames.ParseLiveFrame | tracestack.js:309 | a live frame `call@::` parses into the call as function, with an empty file, line and column |
| Frames.ParseBareText | tracestack.lite.js:460-466 | a line without '@' or ':' has an empty function, no file, no line, and the whole line as column |
| NameGuess.SameDomainRefusesIndexOne | tracestack.js:503-509 | on an http: or https: page, `isSameDomain` refuses exactly the URLs whose host name first occurs at index 1 |
| NameGuess.ForeignHostPasses | tracestack.js:508 | a URL that does not mention the page's host passes `isSameDomain` |
| NameGuess.SameDomainNeedsHttp | tracestack.js:506-507 | without a `location`, or off http: and https:, no URL passes |
| NameGuess.StripComment | tracestack.js:527-530 | the stripped line is the prefix of the line before its first '//': no '//' of the line starts inside it, and it is the whole line or followed by '//' |
| NameGuess.NameIn | tracestack.js:535 | a match names a function only through a non-empty first group |
| NameGuess.FindFunctionName | tracestack.js:511-549 | the backward loop answers what `FindSpec` says |
| NameGuess.ReadLine | tracestack.js:526-546 | one iteration either finds the name the scan answers, or leaves the same answer to the rest of the scan with the grown code |
| NameGuess.FindOutcome | tracestack.js:521-548 | the scan throws TypeError exactly when the line number is a decimal past the end of the source; a line number that is no decimal answers "(?)"; otherwise it answers the name the first matching iteration finds in the code gathered from the lines read so far, and "(?)" when no iteration finds one; never an empty name |
| NameGuess.FindFromFirstNamed | tracestack.js:523-548 | from any iteration on, with the code gathered so far, the loop answers the name of the first iteration that finds one |
| NameGuess.FindFromNoneNamed | tracestack.js:523-548 | from any iteration on, when no later iteration finds a name, the loop answers "(?)" |
| NameGuess.SkipUnnamed | tracestack.js:523-548 | iterations that find no name only move the line index and the gathered code on, so the loop reaches the next iteration in the same state as the code gathered up to it |
| NameGuess.FindReadsWindow | tracestack.js:523-526 | only lines `lineNo - min(lineNo, 20)` to `lineNo - 1` (0-based) are read |
| NameGuess.FindOwnLineFirst | tracestack.js:532-537 | the entry's own line is tried first, with the expression pattern first |
| NameGuess.SourceCache.constructor | tracestack.js:173 | the cache starts empty, with nothing requested |
| NameGuess.SourceCache.GetSource | tracestack.js:641-647 | a URL is fetched only when neither cached nor inherited from Object.prototype; an inherited name answers a source without lines and changes nothing; entries are never removed or overwritten; repeated calls answer the cached lines; every cached entry holds what its URL yields, and each URL is requested once |
| NameGuess.InheritedSourceScan | tracestack.js:641-647 | an inherited name is never fetched or cached, and scanning its source throws for a positive decimal line number and answers "(?)" otherwise |
| Entries.GuessOutcome | tracestack.js:484-492 | guessing answers `false` exactly when the file is empty, fails the domain check or the line is falsy, or the line is past the source the cache answers; any name it answers is non-empty |
| Entries.GuessFunctionName | tracestack.js:479-493 | guessing answers as specified; behind a closed gate it fetches nothing and leaves the cache as it was, and otherwise it caches the file's source unless it is cached or inherited; requests are only ever added |
| Entries.GuessedName | tracestack.js:450-452 | the name an entry gets from guessing is never empty, and is '{anonymous}' when the gate is closed |
| Entries.StackEntry.constructor | tracestack.js:428-458 | a new entry holds the parsed parts; an anonymous call is guessed at once when guessing is on, and gets a `guess` method otherwise; the cache changes only by that guess, and requests are only ever added |
| Entries.StackEntry.Guess | tracestack.js:449-455 | `guess` names the entry by the guess or '{anonymous}', caches as guessing does, and removes itself, so it runs once; on an entry without it the call throws and changes nothing, the cache included |
| Entries.Create | tracestack.js:428-458 | `create` throws TypeError exactly for a value that is no string, before reading or fetching anything; a string makes a fresh entry as the constructor does |
| Entries.EntryOfFrame | tracestack.js:431-457 | a canonical frame of a named function becomes an entry with exactly its parts and no `guess` method |
| Entries.AnonymousEntry | tracestack.js:444-456 | '{anonymous}()' keeps its name and gets `guess` when guessing is off, and is named by the guess when it is on |
| Entries.EmptyFunctionIsAnonymous | tracestack.js:457 | a line whose function part is empty gives '{anonymous}' and no `guess` method |
| Entries.RenderOfFrame | tracestack.js:470-472 | an entry of a named frame with file and line renders as `at func (file:line:column)` |
| Entries.RenderOfLiveFrame | tracestack.js:470-472 | an entry of a live frame renders as `at call`, without a location |
| Formatters.Format | tracestack.js:376 | calling a dialect's formatter answers what the table entry computes |
| Formatters.FormatThrows | tracestack.js:181-315 | the parsers throw exactly without a stack, the Opera walks without the property they split, opera10b always, opera10a and opera9 with any limit, and `other` never |
| Tracer.ConfigureOptions | tracestack.js:343-355 | guessing is on unless switched off; only a positive limit is kept; a formatter key picks its dialect; an inherited property name picks no formatter; any other mode falls back to the autodetected dialect |
| Tracer.StackTracer.constructor | tracestack.js:341-355 | a tracer keeps the normalised options |
| Tracer.StackTracer.Run | tracestack.js:363-391 | `run` answers exactly the fixed message when anything throws, leaving the cache as it was, and otherwise a fresh entry per line, in order, guessed as configured, with the cache advanced entry by entry; requests are only ever added |
| Tracer.RunLines | tracestack.js:364-382 | the formatter's call and the slice answer what `RunSpec` says |
| Tracer.MakeEntries | tracestack.js:383 | the `map` makes one fresh entry per line, in order, keeps the cache consistent, advances it entry by entry, and only adds requests |
| Tracer.EntrySpecsAt | tracestack.js:383 | the k-th expected entry state of the `map` is the state of an entry made from the k-th line |
| Tracer.CacheOnlyGrows | tracestack.js:383 | making entries only adds sources to the cache, keeping every cached one, and adds none when guessing is off |
| Tracer.RunShape | tracestack.js:375-382 | past the formatter `run` fails exactly when the formatter threw; otherwise it keeps the lines from `shift` (0 for `other`), in order: all of them without a limit, and `min(myLimit, available)` with one |
| Tracer.CutShape | tracestack.js:377-382 | the slice keeps the lines from index `shift` (0 for `other`), in order: all of them without a limit, and `min(myLimit, available)` with one |
| Tracer.OperaTracersFail | tracestack.js:375-389 | an opera10b tracer, and an opera10a or opera9 tracer with a limit, always answer the message |
| Tracer.OtherTracerSucceeds | tracestack.js:376-378 | a tracer in `other` mode never fails and keeps at most ten lines |
| Tracer.TraceTextLines | tracestack.js:385 | split on line breaks, the trace text without entries is the message's lines and a lone tab (one empty line without a message); with entries it is the lines of the message and of each rendering, all but the first after a tab; when none holds a line break, the message, then one tab-indented line per entry |
| TracerLite.LiteStackEntry.constructor | tracestack.lite.js:457-472 | a lite entry holds the parsed parts, with '{anonymous}' for an empty function and no guessing |
| TracerLite.CreateLiteEntry | tracestack.lite.js:457-472 | the lite `create` throws TypeError exactly for a value that is no string; a string makes a fresh lite entry |
| TracerLite.LiteEntryOfFrame | tracestack.lite.js:460-483 | a named canonical frame becomes a lite entry with exactly its parts, rendering as `Line line, Column column of file: func` |
| TracerLite.LiteRenderOfCall | tracestack.lite.js:481-483 | a lite `other` line renders as `Line undefined, Column call of : {anonymous}` |
| TracerLite.LiteStackTracer.constructor | tracestack.lite.js:339-350 | a lite tracer keeps the normalised limit and mode |
| TracerLite.LiteRunLines | tracestack.lite.js:370-372 | the lite formatter's call and slice answer what `LiteRunSpec` says |
| TracerLite.LiteStackTracer.Run | tracestack.lite.js:358-381 | the lite `run` answers exactly the fixed message when anything throws, and otherwise a fresh lite entry per line, in order |
| TracerLite.MakeLiteEntries | tracestack.lite.js:373 | the `map` makes one fresh lite entry per line, in order |
| TracerLite.LiteOtherRun | tracestack.lite.js:364-372 | in `other` mode the lite `run` never fails and keeps the calls from index `shift` on, never beyond the tenth call |
| TracerLite.LiteTraceTextLines | tracestack.lite.js:375 | split on line breaks, the lite trace text is one empty line without entries, and otherwise the lines of each rendering in turn: exactly one line per entry when no rendering holds a line break |

## Left out

- Regular-expression semantics: the engine is a parameter, so the proofs hold for any engine, and what each pattern matches is not modelled.
- `ajax` and `createXMLHTTPObject`: the synchronous request is the parameter `fetch`. A server whose answer changes between requests is not modelled, since `fetch` is a function.
- `StackMonitor`, the lite `trace` and `stop`, `evilClass`, and the module, export and `factory` shims: they are runtime patching and loader plumbing, not stack parsing.
- `createException` and the caller walk through `arguments.callee.caller`: the created error and the live chain are inputs. In the lite edition the chain starts at `run` itself.
- The caching of `ourFormatter` is not modelled separately, because a tracer's formatter is always `formatters[myMode]`.
- JavaScript numbers: limits and arguments are integers. Fractional, NaN or string limits and non-integer arguments are not modelled.
- Line numbers that are not plain decimal strings (signs, spaces, exponents) are read as NaN. Such a line number makes the scan answer "(?)".
- A truthy `ex` that is not an error object is not modelled: `ex` is an error record or absent.
- Values whose `constructor` and prototype disagree (an object made by `Object.create(String.prototype)`, say) are not modelled: values are told apart by their constructor, so `Str` stands for string primitives and String objects alike.
- `out.toString` is a function over the entries' states (`Tracer.TraceText`, `TracerLite.LiteTraceText`), not a property on the answered array.
- `parsePhase` stops at a falsy rule. That case is not modelled, because every rule in the tables is an array.
