/**
 * The `formatters` table: for each dialect, the function or parser that
 * turns what the environment gives (an error object, or for `other` the
 * live chain of callers) into canonical frame lines. The two editions
 * differ only in `other`.
 */
module Formatters {
  import opened Js
  import opened Regex
  import opened Detect
  import opened StackParser
  import opened Opera
  import opened LiveChain

  /** tracestack.js or tracestack.lite.js. */
  datatype Edition = Full | Lite

  /**
   * What `formatters[d]` yields, or the exception it throws: the generic
   * parser with the dialect's profile for chrome, safari, ie and firefox,
   * the line walks for the Opera dialects, the live chain for `other`.
   */
  function FormatSpec(edition: Edition, d: Dialect, rx: Engine, e: ErrorLike, chain: seq<LiveFrame>, limit: nat)
    : Result<seq<string>>
  {
    if d == Other then Ok(if edition == Full then OtherSpec(rx, chain, limit) else LiteOtherSpec(rx, chain))
    else StackFormatSpec(d, rx, e, limit)
  }

  /** The formatters that read the error object. */
  function StackFormatSpec(d: Dialect, rx: Engine, e: ErrorLike, limit: nat): Result<seq<string>>
    requires d != Other
  {
    match d
    case Chrome => ParseSpec(rx, ChromeProfile, e, limit)
    case Safari => ParseSpec(rx, SafariProfile, e, limit)
    case Ie => ParseSpec(rx, IeProfile, e, limit)
    case Firefox => ParseSpec(rx, FirefoxProfile, e, limit)
    case Opera11 => OperaSpec(Opera11Lines, rx, e, limit)
    case Opera10a => OperaSpec(Opera10aLines, rx, e, limit)
    case Opera9 => OperaSpec(Opera9Lines, rx, e, limit)
    case Opera10b => Err(if e.stacktrace == "" then TypeError else ReferenceError)
  }

  /** Calling the formatter of dialect `d`. */
  method Format(edition: Edition, d: Dialect, rx: Engine, e: ErrorLike, chain: seq<LiveFrame>, limit: nat)
    returns (r: Result<seq<string>>)
    ensures r == FormatSpec(edition, d, rx, e, chain, limit)
  {
    match d {
      case Chrome => r := Parse(rx, ChromeProfile, e, limit);
      case Safari => r := Parse(rx, SafariProfile, e, limit);
      case Ie => r := Parse(rx, IeProfile, e, limit);
      case Firefox => r := Parse(rx, FirefoxProfile, e, limit);
      case Opera11 => r := Opera11Format(rx, e, limit);
      case Opera10a => r := Opera10aFormat(rx, e, limit);
      case Opera9 => r := Opera9Format(rx, e, limit);
      case Opera10b => r := Opera10bFormat(rx, e, limit);
      case Other =>
        var stack;
        if edition == Full {
          stack := OtherFormat(rx, chain, limit);
        } else {
          stack := LiteOtherFormat(rx, chain);
        }
        r := Ok(stack);
    }
  }

  /**
   * Which formatters throw: the parsers without a stack, the Opera walks
   * without the property they split, opera10b always, opera10a and opera9
   * with any limit; `other` never does.
   */
  lemma FormatThrows(edition: Edition, d: Dialect, rx: Engine, e: ErrorLike, chain: seq<LiveFrame>, limit: nat)
    ensures FormatSpec(edition, d, rx, e, chain, limit).Err? <==>
      match d
      case Chrome | Safari | Ie | Firefox => e.stack == ""
      case Opera11 => e.stacktrace == ""
      case Opera10a => e.stacktrace == "" || limit > 0
      case Opera9 => e.message == "" || limit > 0
      case Opera10b => true
      case Other => false
  {
    match d
    case Opera11 => OperaOutcomes(Opera11Lines, rx, e, limit);
    case Opera10a => OperaOutcomes(Opera10aLines, rx, e, limit);
    case Opera9 => OperaOutcomes(Opera9Lines, rx, e, limit);
    case _ =>
  }
}
