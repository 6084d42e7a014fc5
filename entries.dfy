/**
 * `StackEntry` of tracestack.js: one canonical frame line taken apart
 * into function, file, line and column, with the name of an anonymous
 * function guessed from its source either at once or later, through the
 * one-shot `guess` method; and its `toString` rendering.
 */
module Entries {
  import opened Js
  import opened JsText
  import opened Regex
  import opened Frames
  import opened NameGuess

  /** What guessing reads from the environment: the regex engine, the page's `location` and the network. */
  datatype Env = Env(rx: Engine, location: Option<Location>, fetch: string -> string)

  /** The gate of `guessFunctionName`: a file, on the page's domain, and a line. */
  predicate MayGuess(env: Env, file: string, line: Option<string>) {
    file != "" && IsSameDomain(file, env.location) && LineTruthy(line)
  }

  /**
   * What `guessFunctionName` returns: the name the scan finds, or None for
   * `false`, when the gate is closed or the scan throws.
   */
  function GuessSpec(env: Env, file: string, line: Option<string>): Option<string> {
    if MayGuess(env, file, line) then
      match FindSpec(env.rx, CachedSource(env.fetch, file), line.value)
      case Ok(name) => Some(name)
      case Err(_) => None
    else None
  }

  /**
   * `guessFunctionName` answers `false` exactly when its gate is closed or
   * the line number is a decimal past the end of the cached source;
   * any name it answers is non-empty.
   */
  lemma GuessOutcome(env: Env, file: string, line: Option<string>)
    ensures GuessSpec(env, file, line).None? <==>
      !MayGuess(env, file, line)
      || (IsDecimal(line.value) && DecimalValue(line.value) > |CachedSource(env.fetch, file)|)
    ensures GuessSpec(env, file, line).Some? ==> GuessSpec(env, file, line).value != ""
  {
    if MayGuess(env, file, line) {
      FindOutcome(env.rx, CachedSource(env.fetch, file), line.value);
    }
  }

  /** `sourceCache` after `guessFunctionName`: the file's source is cached only behind the gate. */
  function CacheAfterGuess(env: Env, sources: map<string, seq<string>>, file: string, line: Option<string>)
    : map<string, seq<string>>
  {
    if MayGuess(env, file, line) then AfterGetSource(sources, env.fetch, file) else sources
  }

  /**
   * `guessFunctionName(entry)`: only behind the gate does it fetch the
   * source (through the cache) and scan it; a throw in the scan is caught
   * and answers `false`.
   */
  method GuessFunctionName(env: Env, cache: SourceCache, file: string, line: Option<string>)
    returns (r: Option<string>)
    requires cache.Valid(env.fetch)
    modifies cache
    ensures cache.Valid(env.fetch)
    ensures r == GuessSpec(env, file, line)
    ensures cache.sources == CacheAfterGuess(env, old(cache.sources), file, line)
    ensures old(cache.fetched) <= cache.fetched
    ensures !MayGuess(env, file, line) ==> cache.fetched == old(cache.fetched)
  {
    if file != "" && IsSameDomain(file, env.location) && LineTruthy(line) {
      var source := cache.GetSource(file, env.fetch);
      var found := FindFunctionName(env.rx, source, line.value);
      if found.Ok? {
        return Some(found.value);
      }
    }
    return None;
  }

  /** `(!!func) ? func : ANON` applied to what guessing answers. */
  function GuessedName(env: Env, file: string, line: Option<string>): (r: string)
    ensures r != ""
    ensures !MayGuess(env, file, line) ==> r == Anon
  {
    match GuessSpec(env, file, line)
    case Some(name) => FuncOrAnon(name)
    case None => Anon
  }

  /** The properties of an entry; `hasGuess` says whether the entry has its own `guess` method. */
  datatype EntryState = EntryState(func: string, file: string, line: Option<string>, column: string, hasGuess: bool)

  /**
   * What `new StackEntry(text, guess)` holds. An anonymous call
   * ('{anonymous}()') is guessed at once when guessing is on, and is given
   * a `guess` method otherwise.
   */
  function EntrySpec(env: Env, text: string, guess: bool): EntryState {
    var f := ParseFrame(text);
    var func := if guess && f.func == AnonCall then GuessedName(env, f.file, f.line) else f.func;
    EntryState(FuncOrAnon(func), f.file, f.line, f.column, !guess && f.func == AnonCall)
  }

  /** `sourceCache` after `new StackEntry(text, guess)`: changed only by a guess made at once. */
  function CacheAfterEntry(env: Env, sources: map<string, seq<string>>, text: string, guess: bool)
    : map<string, seq<string>>
  {
    var f := ParseFrame(text);
    if guess && f.func == AnonCall then CacheAfterGuess(env, sources, f.file, f.line) else sources
  }

  /** `StackEntry.prototype.toString`: `at func (file:line:column)`, the location only with a file. */
  function Render(s: EntryState): string {
    "at " + s.func
    + (if s.file != "" then
         " (" + s.file
         + (if LineTruthy(s.line) then ":" + s.line.value else "")
         + (if LineTruthy(s.line) then ":" + s.column else "")
         + ")"
       else "")
  }

  class StackEntry {
    var file: string
    var line: Option<string>
    var column: string
    var func: string
    var hasGuess: bool

    function State(): EntryState
      reads this
    {
      EntryState(func, file, line, column, hasGuess)
    }

    /** `toString()`. */
    function ToString(): string
      reads this
    {
      Render(State())
    }

    /** `StackEntry.create(text, guess)` for a string `text`. */
    constructor (text: string, guess: bool, env: Env, cache: SourceCache)
      requires cache.Valid(env.fetch)
      modifies cache
      ensures cache.Valid(env.fetch)
      ensures State() == EntrySpec(env, text, guess)
      ensures cache.sources == CacheAfterEntry(env, old(cache.sources), text, guess)
      ensures old(cache.fetched) <= cache.fetched
    {
      var f := ParseFrame(text);
      var name := f.func;
      if guess && name == AnonCall {
        var guessed := GuessFunctionName(env, cache, f.file, f.line);
        name := if guessed.Some? then guessed.value else "";
      }
      file := f.file;
      line := f.line;
      column := f.column;
      hasGuess := !guess && f.func == AnonCall;
      func := FuncOrAnon(name);
    }

    /**
     * `entry.guess()`: guesses the name once, falls back to '{anonymous}',
     * and deletes the method; on an entry without the method the call
     * throws TypeError and changes nothing.
     */
    method Guess(env: Env, cache: SourceCache) returns (r: Result<()>)
      requires cache.Valid(env.fetch)
      modifies this, cache
      ensures cache.Valid(env.fetch)
      ensures old(hasGuess) ==>
        r.Ok? && State() == old(State()).(func := GuessedName(env, file, line), hasGuess := false)
        && cache.sources == CacheAfterGuess(env, old(cache.sources), file, line)
      ensures !old(hasGuess) ==>
        r == Err(TypeError) && State() == old(State())
        && cache.sources == old(cache.sources) && cache.fetched == old(cache.fetched)
      ensures old(cache.fetched) <= cache.fetched
    {
      if !hasGuess {
        return Err(TypeError);
      }
      var guessed := GuessFunctionName(env, cache, file, line);
      func := if guessed.Some? then FuncOrAnon(guessed.value) else Anon;
      hasGuess := false;
      r := Ok(());
    }
  }

  /**
   * `StackEntry.create(line, guess)` for any value: one that is no string
   * (`typeof` and `instanceof String` both fail) throws TypeError before
   * anything is read or fetched; a string makes an entry.
   */
  method Create(v: JsValue, guess: bool, env: Env, cache: SourceCache) returns (r: Result<StackEntry>)
    requires cache.Valid(env.fetch)
    modifies cache
    ensures cache.Valid(env.fetch)
    ensures r.Err? <==> !v.Str?
    ensures r.Err? ==> r.error == TypeError && cache.sources == old(cache.sources) && cache.fetched == old(cache.fetched)
    ensures r.Ok? ==> fresh(r.value) && r.value.State() == EntrySpec(env, v.s, guess)
    ensures r.Ok? ==> cache.sources == CacheAfterEntry(env, old(cache.sources), v.s, guess)
    ensures old(cache.fetched) <= cache.fetched
  {
    var text := CheckLine(v);
    if text.Err? {
      return Err(text.error);
    }
    var entry := new StackEntry(text.value, guess, env, cache);
    return Ok(entry);
  }

  /**
   * A canonical frame of a named function becomes an entry with exactly
   * that function, file, line and column, guessed or not.
   */
  lemma EntryOfFrame(env: Env, guess: bool, func: string, file: string, line: string, column: string)
    requires func != "" && func != AnonCall
    requires '@' !in file && '@' !in line && '@' !in column
    requires ':' !in line && ':' !in column
    ensures EntrySpec(env, func + "@" + file + ":" + line + ":" + column, guess)
            == EntryState(func, file, Some(line), column, false)
  {
    ParseFrameRoundTrip(func, file, line, column);
  }

  /**
   * An anonymous call keeps the name '{anonymous}()' and gets a `guess`
   * method when guessing is off, and is named by the guess at once when
   * it is on.
   */
  lemma AnonymousEntry(env: Env, text: string, guess: bool)
    requires ParseFrame(text).func == AnonCall
    ensures !guess ==> EntrySpec(env, text, guess).func == AnonCall && EntrySpec(env, text, guess).hasGuess
    ensures guess ==>
      var f := ParseFrame(text);
      EntrySpec(env, text, guess).func == GuessedName(env, f.file, f.line) && !EntrySpec(env, text, guess).hasGuess
  {
  }

  /**
   * A line with no '@' after its first character has an empty function
   * part, which gives '{anonymous}' and no `guess` method.
   */
  lemma EmptyFunctionIsAnonymous(env: Env, text: string, guess: bool)
    requires forall k :: 1 <= k < |text| ==> text[k] != '@'
    ensures EntrySpec(env, text, guess).func == Anon && !EntrySpec(env, text, guess).hasGuess
  {
    LastAtSeparates(text);
    if '@' in text {
      var fp := FuncPart(text);
      assert fp + "@" + LocationOf(text) == text;
      assert text[|fp|] == '@';
    }
  }

  /**
   * A named frame with a file and a line renders as `at func (file:line:column)`:
   * the canonical line turned around into the V8 style.
   */
  lemma RenderOfFrame(env: Env, guess: bool, func: string, file: string, line: string, column: string)
    requires func != "" && func != AnonCall && file != "" && line != ""
    requires '@' !in file && '@' !in line && '@' !in column
    requires ':' !in line && ':' !in column
    ensures Render(EntrySpec(env, func + "@" + file + ":" + line + ":" + column, guess))
            == "at " + func + " (" + file + ":" + line + ":" + column + ")"
  {
    EntryOfFrame(env, guess, func, file, line, column);
  }

  /** A frame of the live chain (`call@::`) renders as `at call`, without a location. */
  lemma RenderOfLiveFrame(env: Env, guess: bool, call: string)
    requires call != "" && call != AnonCall
    ensures Render(EntrySpec(env, call + "@::", guess)) == "at " + call
  {
    ParseLiveFrame(call);
  }
}
