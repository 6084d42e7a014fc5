/**
 * The canonical frame line `func@file:line:column` and how
 * `StackEntry.create` takes it apart: the text after the last '@' is the
 * location; of the location, the text after the last ':' is the column,
 * the piece before it the line, and everything before that, re-joined with
 * ':', the file.
 */
module Frames {
  import opened Js
  import opened JsText

  /**
   * The fields of a parsed frame. `line` is None where the source reads
   * `undefined`: `pop()` on an empty array, when the location holds no ':'.
   */
  datatype FrameFields = FrameFields(func: string, file: string, line: Option<string>, column: string)

  /** `!!line`: a line is truthy when present and non-empty. */
  predicate LineTruthy(line: Option<string>) {
    line.Some? && line.value != ""
  }

  /** The location: the last '@'-separated piece, `tmp.pop()`. */
  function LocationOf(text: string): string {
    Last(Split(text, '@'))
  }

  /** The function part: the other '@'-separated pieces, `tmp.join('@')`. */
  function FuncPart(text: string): string {
    var tmp := Split(text, '@');
    Join(tmp[..|tmp| - 1], "@")
  }

  /** `loc.split(':')`, `pop()` twice, `join(':')`: the file, line and column of a frame. */
  function ParseFrame(text: string): FrameFields
  {
    var tmp2 := Split(LocationOf(text), ':');
    var rest := tmp2[..|tmp2| - 1];
    FrameFields(
      FuncPart(text),
      if |rest| == 0 then "" else Join(rest[..|rest| - 1], ":"),
      if |rest| == 0 then None else Some(Last(rest)),
      Last(tmp2))
  }

  /** `(!!func) ? func : ANON`. */
  function FuncOrAnon(func: string): (r: string)
    ensures r != ""
    ensures func != "" ==> r == func
    ensures func == "" ==> r == Anon
  {
    if func != "" then func else Anon
  }

  /**
   * The type test that precedes parsing: a value that is not a string
   * throws TypeError.
   */
  function CheckLine(v: JsValue): (r: Result<string>)
    ensures r.Ok? <==> v.Str?
    ensures r.Ok? ==> r.value == v.s
    ensures r.Err? ==> r.error == TypeError
  {
    if v.Str? then Ok(v.s) else Err(TypeError)
  }

  /** The location never holds '@': it is what follows the last one. */
  lemma LocationHasNoAt(text: string)
    ensures '@' !in LocationOf(text)
  {
    var tmp := Split(text, '@');
    assert '@' !in tmp[|tmp| - 1];
  }

  /**
   * The last '@' separates: when the text holds one, the function part,
   * '@' and the location make up the text; without any '@' the function
   * part is empty and the whole text is the location.
   */
  lemma LastAtSeparates(text: string)
    ensures '@' in text ==> FuncPart(text) + "@" + LocationOf(text) == text
    ensures '@' !in text ==> FuncPart(text) == "" && LocationOf(text) == text
  {
    var tmp := Split(text, '@');
    if '@' in text {
      SplitCount(text, '@');
      assert '@' in multiset(text);
      assert tmp == tmp[..|tmp| - 1] + [Last(tmp)];
      JoinSnoc(tmp[..|tmp| - 1], Last(tmp), "@");
      JoinSplit(text, '@');
    } else {
      SplitNoSeparator(text, '@');
    }
  }

  /**
   * A line built from a function name and a location whose file, line and
   * column hold no '@', and whose line and column hold no ':', parses back
   * into exactly those four parts; the file and the function name may hold
   * ':' and '@' respectively.
   */
  lemma ParseFrameRoundTrip(func: string, file: string, line: string, column: string)
    requires '@' !in file && '@' !in line && '@' !in column
    requires ':' !in line && ':' !in column
    ensures ParseFrame(func + "@" + file + ":" + line + ":" + column)
            == FrameFields(func, file, Some(line), column)
  {
    var tail := line + ":" + column;
    var loc := file + ":" + tail;
    var text := func + "@" + file + ":" + line + ":" + column;
    assert text == func + ['@'] + loc;
    assert '@' !in loc;
    SplitAround(func, loc, '@');
    SplitNoSeparator(loc, '@');
    var tmp := Split(text, '@');
    assert tmp == Split(func, '@') + [loc];
    assert tmp[..|tmp| - 1] == Split(func, '@');
    JoinSplit(func, '@');
    assert loc == file + [':'] + tail;
    assert tail == line + [':'] + column;
    SplitAround(file, tail, ':');
    SplitAround(line, column, ':');
    SplitNoSeparator(line, ':');
    SplitNoSeparator(column, ':');
    var tmp2 := Split(loc, ':');
    assert tmp2 == Split(file, ':') + [line] + [column];
    var rest := tmp2[..|tmp2| - 1];
    assert rest == Split(file, ':') + [line];
    assert rest[..|rest| - 1] == Split(file, ':');
    JoinSplit(file, ':');
  }

  /** `"foo@http://x/y.js:12:5"` gives ("foo", "http://x/y.js", "12", "5"). */
  lemma ParseFrameExample()
    ensures ParseFrame("foo@http://x/y.js:12:5") == FrameFields("foo", "http://x/y.js", Some("12"), "5")
  {
    assert "foo@http://x/y.js:12:5" == "foo" + "@" + "http://x/y.js" + ":" + "12" + ":" + "5";
    ParseFrameRoundTrip("foo", "http://x/y.js", "12", "5");
  }

  /** `"a@b@http://x/y.js:1:1"` gives function "a@b": the last '@' wins. */
  lemma LastAtWinsExample()
    ensures ParseFrame("a@b@http://x/y.js:1:1") == FrameFields("a@b", "http://x/y.js", Some("1"), "1")
  {
    assert "a@b@http://x/y.js:1:1" == "a@b" + "@" + "http://x/y.js" + ":" + "1" + ":" + "1";
    ParseFrameRoundTrip("a@b", "http://x/y.js", "1", "1");
  }

  /**
   * A line ending in "@::" (what the live-chain formatter of tracestack.js
   * emits) keeps everything before that '@' as the function, with an empty
   * file, line and column, whatever '@' the function text holds.
   */
  lemma ParseLiveFrame(call: string)
    ensures ParseFrame(call + "@::") == FrameFields(call, "", Some(""), "")
  {
    ParseFrameRoundTrip(call, "", "", "");
    assert call + "@::" == call + "@" + "" + ":" + "" + ":" + "";
  }

  /**
   * A line without '@' or ':' has an empty function part (so the entry's
   * function becomes '{anonymous}'), no line, and the whole text as column.
   */
  lemma ParseBareText(text: string)
    requires '@' !in text && ':' !in text
    ensures ParseFrame(text) == FrameFields("", "", None, text)
  {
    SplitNoSeparator(text, '@');
    SplitNoSeparator(text, ':');
  }
}
