/**
 * Dialect detection (`StackParser.autodetect`): which environment produced
 * an error object, judged only from which of its properties are truthy.
 */
module Detect {
  import opened Js
  import opened JsText

  /**
   * The properties of an error-like object that detection and the
   * formatters read. A string property that is missing is "", and "" is
   * falsy; `number` is falsy when 0; `hasArguments` and `operaSourceloc`
   * stand for the truthiness of `e['arguments']` and `e['opera#sourceloc']`.
   */
  datatype ErrorLike = ErrorLike(
    stack: string,
    hasArguments: bool,
    sourceURL: string,
    number: int,
    fileName: string,
    message: string,
    stacktrace: string,
    operaSourceloc: bool)

  /** The keys of the `formatters` table. */
  datatype Dialect = Chrome | Safari | Ie | Firefox | Opera9 | Opera10a | Opera10b | Opera11 | Other

  function DialectName(d: Dialect): string {
    match d
    case Chrome => "chrome"
    case Safari => "safari"
    case Ie => "ie"
    case Firefox => "firefox"
    case Opera9 => "opera9"
    case Opera10a => "opera10a"
    case Opera10b => "opera10b"
    case Opera11 => "opera11"
    case Other => "other"
  }

  /** The dialect whose formatter key is `name`, if any. */
  function DialectNamed(name: string): (r: Option<Dialect>)
    ensures r.Some? ==> DialectName(r.value) == name
    ensures forall d: Dialect :: DialectName(d) == name ==> r == Some(d)
  {
    match name
    case "chrome" => Some(Chrome)
    case "safari" => Some(Safari)
    case "ie" => Some(Ie)
    case "firefox" => Some(Firefox)
    case "opera9" => Some(Opera9)
    case "opera10a" => Some(Opera10a)
    case "opera10b" => Some(Opera10b)
    case "opera11" => Some(Opera11)
    case "other" => Some(Other)
    case _ => None
  }

  const CalledFromLine: string := "called from line"

  /**
   * The decision tree. With a stack, the first truthy marker among
   * `arguments`, `sourceURL`, `number`, `fileName`, then `message` with
   * `stacktrace`, decides; without a stack only `message` with the Opera
   * source-location marker escapes the live-chain fallback.
   */
  function Autodetect(e: ErrorLike): (d: Dialect)
    ensures e.stack != "" ==> d != Other
    ensures e.stack == "" ==> (d != Other <==> e.message != "" && e.operaSourceloc)
    ensures e.stack == "" && d != Other ==> d == Opera9 || d == Opera10a
    ensures d == Chrome <==>
      e.stack != "" && (e.hasArguments
        || (e.sourceURL == "" && e.number == 0 && e.fileName == "" && !(e.message != "" && e.stacktrace != "")))
    ensures d == Safari <==> e.stack != "" && !e.hasArguments && e.sourceURL != ""
    ensures d == Ie <==> e.stack != "" && !e.hasArguments && e.sourceURL == "" && e.number != 0
    ensures d == Firefox <==>
      e.stack != "" && !e.hasArguments && e.sourceURL == "" && e.number == 0 && e.fileName != ""
    ensures d == Opera10b || d == Opera11 <==>
      e.stack != "" && !e.hasArguments && e.sourceURL == "" && e.number == 0 && e.fileName == ""
      && e.message != "" && e.stacktrace != ""
    ensures d == Opera11 ==> IndexOf(e.stacktrace, CalledFromLine) >= 0
    ensures d == Opera10b ==> IndexOf(e.stacktrace, CalledFromLine) < 0
  {
    if e.stack != "" then
      if e.hasArguments then Chrome
      else if e.sourceURL != "" then Safari
      else if e.number != 0 then Ie
      else if e.fileName != "" then Firefox
      else if e.message != "" && e.stacktrace != "" then
        if IndexOf(e.stacktrace, CalledFromLine) < 0 then Opera10b else Opera11
      else if e.fileName == "" then Chrome
      else Other
    else if e.message != "" && e.operaSourceloc then
      if e.stacktrace == "" then Opera9
      else if IndexOf(e.message, "\n") > -1
              && |Split(e.message, '\n')| > |Split(e.stacktrace, '\n')| then Opera9
      else Opera10a
    else Other
  }

  /**
   * Between the two Opera dialects without a stack, opera9 is chosen exactly
   * when there is no stacktrace or the message holds a newline and more
   * newlines than the stacktrace.
   */
  lemma Opera9ByNewlineCount(e: ErrorLike)
    requires e.stack == "" && e.message != "" && e.operaSourceloc
    ensures Autodetect(e) == Opera9 <==>
      e.stacktrace == "" || ('\n' in e.message && multiset(e.message)['\n'] > multiset(e.stacktrace)['\n'])
  {
    SplitCount(e.message, '\n');
    SplitCount(e.stacktrace, '\n');
    var i := IndexOf(e.message, "\n");
    if '\n' in e.message {
      var k :| 0 <= k < |e.message| && e.message[k] == '\n';
      assert OccursAt(e.message, "\n", k);
    }
    if i > -1 {
      assert e.message[i] == '\n';
    }
  }
}
