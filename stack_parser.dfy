/**
 * The generic formatter (`StackParser`): rewrite the raw stack text with
 * the dialect's `pre` rules, cut it to a number of lines, rewrite again
 * with the `parsers` rules, split on '\n', and post-process the lines.
 * Used by the chrome, safari, ie and firefox dialects.
 */
module StackParser {
  import opened Js
  import opened JsText
  import opened Regex
  import opened Detect

  /** One rewrite `[pattern, replacement]`; the replacement may be left out. */
  datatype Rule = Rule(pattern: Pattern, replacement: Option<string>)

  /** `!!!expr[1] ? '' : expr[1]`: a missing replacement deletes what matches. */
  function ReplacementText(rule: Rule): string
  {
    match rule.replacement
    case None => ""
    case Some(t) => t
  }

  /** `text.replace(pattern, replacement)`. */
  function ApplyRule(rx: Engine, rule: Rule, text: string): string {
    rx.replace(rule.pattern, text, ReplacementText(rule))
  }

  /** The rules applied one after another, first rule first. */
  function ApplyRules(rx: Engine, rules: seq<Rule>, text: string): string
    decreases |rules|
  {
    if rules == [] then text
    else ApplyRules(rx, rules[1..], ApplyRule(rx, rules[0], text))
  }

  /**
   * `parsePhase`: the while loop that reassigns `out` once per rule. Every
   * rule of the tracer is an array, so the loop's stop at a falsy entry
   * never fires.
   */
  method ParsePhase(rx: Engine, stack: string, expressions: seq<Rule>) returns (out: string)
    ensures out == ApplyRules(rx, expressions, stack)
  {
    out := stack;
    var i := 0;
    while i < |expressions|
      invariant 0 <= i <= |expressions|
      invariant ApplyRules(rx, expressions[i..], out) == ApplyRules(rx, expressions, stack)
    {
      assert expressions[i..][1..] == expressions[i + 1..];
      out := ApplyRule(rx, expressions[i], out);
      i := i + 1;
    }
  }

  /** Rewriting with two rule lists in turn is rewriting with their concatenation. */
  lemma {:induction false} ApplyRulesConcat(rx: Engine, first: seq<Rule>, second: seq<Rule>, text: string)
    ensures ApplyRules(rx, first + second, text) == ApplyRules(rx, second, ApplyRules(rx, first, text))
    decreases |first|
  {
    if first != [] {
      assert (first + second)[1..] == first[1..] + second;
      ApplyRulesConcat(rx, first[1..], second, ApplyRule(rx, first[0], text));
    } else {
      assert first + second == second;
    }
  }

  /**
   * `applyStackLimit`: with a limit, keep the first `limit + 1` lines of
   * the text (split on every kind of line break) joined by '\n'.
   */
  function ApplyStackLimit(stack: string, limit: nat): string {
    if limit == 0 then stack
    else
      var lines := SplitLines(stack);
      Join(lines[..Min(limit + 1, |lines|)], "\n")
  }

  /**
   * Without a limit the text is unchanged; with one, the result's lines
   * are the first `limit + 1` lines of the input (fewer when it has fewer).
   */
  lemma ApplyStackLimitLines(stack: string, limit: nat)
    ensures limit == 0 ==> ApplyStackLimit(stack, limit) == stack
    ensures limit > 0 ==>
      var lines := SplitLines(stack);
      Split(ApplyStackLimit(stack, limit), '\n') == lines[..Min(limit + 1, |lines|)]
    ensures limit > 0 ==> |Split(ApplyStackLimit(stack, limit), '\n')| <= limit + 1
  {
    if limit > 0 {
      var lines := SplitLines(stack);
      var kept := lines[..Min(limit + 1, |lines|)];
      forall k | 0 <= k < |kept| ensures '\n' !in kept[k] {
        assert kept[k] == lines[k] && NoLineBreak(lines[k]);
      }
      SplitJoin(kept, '\n');
    }
  }

  /** The `post` step of a profile. */
  datatype Post = Keep | DropFirst | AppendColon

  /**
   * `stack.slice(1)` drops the first line; `stack.map(v => v + ':')`
   * appends ':' to each line; the default returns the lines as they are.
   */
  function ApplyPost(post: Post, lines: seq<string>): (r: seq<string>)
    ensures post == Keep ==> r == lines
    ensures post == DropFirst ==>
      |r| == (if |lines| == 0 then 0 else |lines| - 1) && forall k :: 0 <= k < |r| ==> r[k] == lines[k + 1]
    ensures post == AppendColon ==>
      |r| == |lines| && forall k :: 0 <= k < |r| ==> r[k] == lines[k] + ":"
  {
    match post
    case Keep => lines
    case DropFirst => if |lines| == 0 then [] else lines[1..]
    case AppendColon => seq(|lines|, k requires 0 <= k < |lines| => lines[k] + ":")
  }

  /** A dialect's configuration: its `pre` and `parsers` rules and its `post` step. */
  datatype Profile = Profile(pre: seq<Rule>, parsers: seq<Rule>, post: Post)

  /** What `parse(e, limit)` computes; it reads the `stack` property. */
  function ParseSpec(rx: Engine, profile: Profile, e: ErrorLike, limit: nat): (r: Result<seq<string>>)
    ensures r.Err? <==> e.stack == ""
    ensures r.Err? ==> r.error == TypeError
  {
    if e.stack == "" then Err(TypeError)
    else
      var text := ApplyRules(rx, profile.parsers, ApplyStackLimit(ApplyRules(rx, profile.pre, e.stack), limit));
      Ok(ApplyPost(profile.post, Split(text, '\n')))
  }

  /** `StackParser.parse`: throws TypeError when `e.stack` is falsy. */
  method Parse(rx: Engine, profile: Profile, e: ErrorLike, limit: nat) returns (r: Result<seq<string>>)
    ensures r == ParseSpec(rx, profile, e, limit)
  {
    if e.stack == "" {
      return Err(TypeError);
    }
    var pre := ParsePhase(rx, e.stack, profile.pre);
    var parsed := ParsePhase(rx, ApplyStackLimit(pre, limit), profile.parsers);
    r := Ok(ApplyPost(profile.post, Split(parsed, '\n')));
  }

  // The four profiles, with each pattern's literal source text and flags.

  const ChromeProfile: Profile := Profile(
    [Rule(Pattern("^[\\s\\S]+?\\s+at\\s+", ""), Some(" at "))],
    [Rule(Pattern("^\\s+(at eval )?at\\s+", "gm"), None),
     Rule(Pattern("^([^\\(]+?)([\\n$])", "gm"), Some(AnonCall + " ($1)$2")),
     Rule(Pattern("^Object.<anonymous>\\s*\\(([^\\)]+)\\)", "gm"), Some(AnonCall + " ($1)")),
     Rule(Pattern("^(.+) \\((.+)\\)$", "gm"), Some("$1@$2"))],
    Keep)

  const SafariProfile: Profile := Profile(
    [Rule(Pattern("\\[native code\\]\\n", "m"), None),
     Rule(Pattern("^(?=\\w+Error\\:).*$\\n", "m"), None)],
    [Rule(Pattern("^@", "gm"), Some(AnonCall + "@"))],
    Keep)

  const IeProfile: Profile := Profile(
    [Rule(Pattern("^\\s*at\\s+(.*)$", "gm"), Some("$1"))],
    [Rule(Pattern("^Anonymous function\\s+", "gm"), Some(AnonCall + " ")),
     Rule(Pattern("^(.+)\\s+\\((.+)\\)$", "gm"), Some("$1@$2"))],
    DropFirst)

  const FirefoxProfile: Profile := Profile(
    [Rule(Pattern("(?:\\n@:0)?\\s+$", "m"), None)],
    [Rule(Pattern("^(?:\\((\\S*)\\))?@", "gm"), Some(Anon + "($1)@"))],
    AppendColon)
}
