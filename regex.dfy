/**
 * Regular expressions are not modelled: every pattern the tracer uses is a
 * constant holding its literal source text and flags, and the host's engine
 * (`RegExp.prototype.exec` and `String.prototype.replace`) is a parameter.
 * Only the order in which the tracer applies patterns, and what it does
 * with their results, is part of the model.
 */
module Regex {
  import opened Js

  /** A regular-expression literal `/source/flags`. */
  datatype Pattern = Pattern(source: string, flags: string)

  /**
   * What `exec` returns on a match: index 0 is the whole match, index k >= 1
   * the k-th group, None for a group that did not take part.
   */
  type Captures = seq<Option<string>>

  /** The host's regular-expression engine. */
  datatype Engine = Engine(
    exec: (Pattern, string) -> Option<Captures>,
    replace: (Pattern, string, string) -> string)

  /** `'' + m[k]`: a group that did not take part renders as "undefined". */
  function GroupText(m: Captures, k: nat): string
  {
    if k < |m| && m[k].Some? then m[k].value else "undefined"
  }

  /** `m[k] || fallback`: an absent or empty group gives the fallback. */
  function GroupOr(m: Captures, k: nat, fallback: string): string
  {
    if k < |m| && m[k].Some? && m[k].value != "" then m[k].value else fallback
  }
}
