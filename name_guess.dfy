/**
 * Guessing the name of an anonymous function from its source: the page's
 * origin check (`isSameDomain`), the memoised source fetch (`getSource`
 * and `sourceCache`) and the backwards scan over source lines
 * (`findFunctionName`). The network is the parameter `fetch`: the text a
 * URL yields, `''` where the request fails.
 */
module NameGuess {
  import opened Js
  import opened JsText
  import opened Regex

  /** The page's `location`: its protocol (with the ':') and its host name. */
  datatype Location = Location(protocol: string, hostname: string)

  /**
   * `isSameDomain(url)`: `location` is defined, the page is served over
   * http: or https:, and the host name does not start at index 1 of the
   * URL. The comparison with 1 is kept as written.
   */
  predicate IsSameDomain(url: string, location: Option<Location>) {
    location.Some?
    && (location.value.protocol == "http:" || location.value.protocol == "https:")
    && IndexOf(url, location.value.hostname) != 1
  }

  /**
   * On an http: or https: page `isSameDomain` refuses exactly the URLs whose
   * first occurrence of the host name is at index 1.
   */
  lemma SameDomainRefusesIndexOne(url: string, location: Location)
    requires location.protocol == "http:" || location.protocol == "https:"
    ensures !IsSameDomain(url, Some(location)) <==>
      OccursAt(url, location.hostname, 1) && !OccursAt(url, location.hostname, 0)
  {
    var i := IndexOf(url, location.hostname);
    if OccursAt(url, location.hostname, 1) && !OccursAt(url, location.hostname, 0) {
      assert i != -1;
      assert i == 1;
    }
  }

  /**
   * A URL that does not mention the page's host at all passes `isSameDomain`:
   * cross-origin sources are fetched.
   */
  lemma ForeignHostPasses(url: string, location: Location)
    requires location.protocol == "http:" || location.protocol == "https:"
    requires forall k :: 0 <= k <= |url| ==> !OccursAt(url, location.hostname, k)
    ensures IsSameDomain(url, Some(location))
  {
    SameDomainRefusesIndexOne(url, location);
  }

  /** Without a `location`, or off http: and https:, nothing is fetched. */
  lemma SameDomainNeedsHttp(url: string, location: Option<Location>)
    requires location.None? || (location.value.protocol != "http:" && location.value.protocol != "https:")
    ensures !IsSameDomain(url, location)
  {
  }

  /**
   * `line.substr(0, line.indexOf('//'))` when the line holds '//': the
   * line up to its first '//'. The result is a prefix of the line, no
   * '//' of the line starts inside it, and it is either the whole line or
   * followed in it by '//'.
   */
  function StripComment(line: string): (r: string)
    ensures r <= line
    ensures forall k :: 0 <= k <= |r| ==> !OccursAt(r, "//", k)
    ensures forall k :: 0 <= k < |r| ==> !OccursAt(line, "//", k)
    ensures r == line || OccursAt(line, "//", |r|)
  {
    var pos := IndexOf(line, "//");
    if pos >= 0 then
      var r := line[..pos];
      forall k | 0 <= k <= |r|
        ensures !OccursAt(r, "//", k)
      {
        if OccursAt(r, "//", k) {
          assert line[k..k + 2] == r[k..k + 2];
          assert OccursAt(line, "//", k);
        }
      }
      r
    else line
  }

  const FunctionDeclarationRE: Pattern := Pattern("function\\s+([^(]*?)\\s*\\(([^)]*)\\)", "")
  const FunctionExpressionRE: Pattern :=
    Pattern("['\"]?([$_A-Za-z][$_A-Za-z0-9]*)['\"]?\\s*[:=]\\s*function\\b", "")
  const FunctionEvaluationRE: Pattern :=
    Pattern("['\"]?([$_A-Za-z][$_A-Za-z0-9]*)['\"]?\\s*[:=]\\s*(?:eval|new Function)\\b", "")

  /** `m && m[1]`: a match names a function when its first group is present and non-empty. */
  function NameIn(m: Option<Captures>): (r: Option<string>)
    ensures r.Some? ==> r.value != ""
  {
    match m
    case Some(c) => if 1 < |c| && c[1].Some? && c[1].value != "" then Some(c[1].value) else None
    case None => None
  }

  /** The three patterns in order: expression, then declaration, then evaluation. */
  function MatchName(rx: Engine, code: string): Option<string> {
    var e := NameIn(rx.exec(FunctionExpressionRE, code));
    if e.Some? then e
    else
      var d := NameIn(rx.exec(FunctionDeclarationRE, code));
      if d.Some? then d
      else NameIn(rx.exec(FunctionEvaluationRE, code))
  }

  /** The name when no pattern matches. */
  const Unknown: string := "(?)"

  /**
   * The scan from iteration `i` on, with `code` gathered so far: line
   * `n - i - 1` (0-based) is read, stripped of its comment and, when
   * non-empty, put in front of `code`, which the patterns then try. A line
   * index past the end of the source reads `undefined`, whose `indexOf`
   * throws TypeError.
   */
  function FindFrom(rx: Engine, source: seq<string>, n: nat, i: nat, code: string): Result<string>
    requires i <= Min(n, 20)
    decreases Min(n, 20) - i
  {
    if i == Min(n, 20) then Ok(Unknown)
    else if n - i - 1 >= |source| then Err(TypeError)
    else
      var line := StripComment(source[n - i - 1]);
      if line == "" then FindFrom(rx, source, n, i + 1, code)
      else
        match MatchName(rx, line + code)
        case Some(name) => Ok(name)
        case None => FindFrom(rx, source, n, i + 1, line + code)
  }

  /**
   * What `findFunctionName(source, lineNo)` returns or throws. A line
   * number that is not a decimal is NaN, so the loop does not run.
   */
  function FindSpec(rx: Engine, source: seq<string>, lineNo: string): Result<string> {
    match ToLineNumber(lineNo)
    case None => Ok(Unknown)
    case Some(n) => FindFrom(rx, source, n, 0, "")
  }

  /** `findFunctionName`: the for loop that grows `code` backwards from line `lineNo`. */
  method FindFunctionName(rx: Engine, source: seq<string>, lineNo: string) returns (r: Result<string>)
    ensures r == FindSpec(rx, source, lineNo)
  {
    var num := ToLineNumber(lineNo);
    if num.None? {
      return Ok(Unknown);
    }
    var n := num.value;
    assert FindSpec(rx, source, lineNo) == FindFrom(rx, source, n, 0, "");
    var code := "";
    var maxLines := Min(n, 20);
    var i := 0;
    while i < maxLines
      invariant 0 <= i <= maxLines
      invariant FindFrom(rx, source, n, i, code) == FindFrom(rx, source, n, 0, "")
      decreases maxLines - i
    {
      if n - i - 1 >= |source| {
        // `source[lineNo - i - 1]` is undefined and `line.indexOf` throws.
        return Err(TypeError);
      }
      var found;
      found, code := ReadLine(rx, source, n, i, code);
      if found.Some? {
        return Ok(found.value);
      }
      i := i + 1;
    }
    return Ok(Unknown);
  }

  /**
   * The body of the loop for a line that exists: strip its comment, put it
   * in front of the code and try the patterns on the result.
   */
  method ReadLine(rx: Engine, source: seq<string>, n: nat, i: nat, code: string)
    returns (found: Option<string>, next: string)
    requires i < Min(n, 20) && n - i - 1 < |source|
    ensures found.Some? ==> FindFrom(rx, source, n, i, code) == Ok(found.value)
    ensures found.None? ==> FindFrom(rx, source, n, i, code) == FindFrom(rx, source, n, i + 1, next)
  {
    var line := StripComment(source[n - i - 1]);
    next := code;
    found := None;
    if line != "" {
      next := line + code;
      found := MatchName(rx, next);
    }
  }

  /** From iteration i on, the scan throws exactly when its next line index is past the source. */
  lemma {:induction false} FindFromThrows(rx: Engine, source: seq<string>, n: nat, i: nat, code: string)
    requires i <= Min(n, 20)
    ensures FindFrom(rx, source, n, i, code).Err? <==> i < Min(n, 20) && n - i - 1 >= |source|
    ensures FindFrom(rx, source, n, i, code).Err? ==> FindFrom(rx, source, n, i, code).error == TypeError
    ensures FindFrom(rx, source, n, i, code).Ok? ==> FindFrom(rx, source, n, i, code).value != ""
    decreases Min(n, 20) - i
  {
    if i < Min(n, 20) && n - i - 1 < |source| {
      var line := StripComment(source[n - i - 1]);
      FindFromThrows(rx, source, n, i + 1, if line == "" then code else line + code);
    }
  }

  /**
   * The code gathered after `i` iterations of the scan: the stripped lines
   * `n - i` to `n - 1` (0-based), in source order.
   */
  function CodeAfter(source: seq<string>, n: nat, i: nat): string
    requires i <= n <= |source|
  {
    if i == 0 then "" else StripComment(source[n - i]) + CodeAfter(source, n, i - 1)
  }

  /** Iteration `j` reads a line with code, and a pattern names a function in the code gathered. */
  predicate Named(rx: Engine, source: seq<string>, n: nat, j: nat)
    requires j < n <= |source|
  {
    StripComment(source[n - j - 1]) != "" && MatchName(rx, CodeAfter(source, n, j + 1)).Some?
  }

  /** Iteration `j` is the first from iteration `i` on to find a name. */
  predicate FirstNamed(rx: Engine, source: seq<string>, n: nat, i: nat, j: nat)
    requires n <= |source|
  {
    i <= j < Min(n, 20) && Named(rx, source, n, j)
    && forall j' :: i <= j' < j ==> !Named(rx, source, n, j')
  }

  /** Iteration `i` of the scan, with the code gathered so far, when it finds no name: the scan goes on with the code gathered one line further. */
  lemma NextIteration(rx: Engine, source: seq<string>, n: nat, i: nat)
    requires i < Min(n, 20) && n <= |source| && !Named(rx, source, n, i)
    ensures FindFrom(rx, source, n, i, CodeAfter(source, n, i)) == FindFrom(rx, source, n, i + 1, CodeAfter(source, n, i + 1))
  {
    var line := StripComment(source[n - i - 1]);
    var code := CodeAfter(source, n, i);
    assert CodeAfter(source, n, i + 1) == line + code;
    if line == "" {
      assert line + code == code;
    }
  }

  /** Iteration `i` of the scan, with the code gathered so far, when it finds a name: the scan answers it. */
  lemma NamedIteration(rx: Engine, source: seq<string>, n: nat, i: nat)
    requires i < Min(n, 20) && n <= |source| && Named(rx, source, n, i)
    ensures FindFrom(rx, source, n, i, CodeAfter(source, n, i)) == Ok(MatchName(rx, CodeAfter(source, n, i + 1)).value)
  {
    var line := StripComment(source[n - i - 1]);
    assert CodeAfter(source, n, i + 1) == line + CodeAfter(source, n, i);
  }

  /** From iteration `i` on, when no iteration finds a name, the scan answers "(?)". */
  lemma {:induction false} FindFromNoneNamed(rx: Engine, source: seq<string>, n: nat, i: nat)
    requires i <= Min(n, 20) && n <= |source|
    requires forall j :: i <= j < Min(n, 20) ==> !Named(rx, source, n, j)
    ensures FindFrom(rx, source, n, i, CodeAfter(source, n, i)) == Ok(Unknown)
    decreases Min(n, 20) - i
  {
    if i < Min(n, 20) {
      NextIteration(rx, source, n, i);
      FindFromNoneNamed(rx, source, n, i + 1);
    }
  }

  /** No iteration from `i` up to `j` finds a name, stated one iteration at a time. */
  predicate NoneNamedUpTo(rx: Engine, source: seq<string>, n: nat, i: nat, j: nat)
    requires i <= j < n <= |source|
    decreases j - i
  {
    i == j || (!Named(rx, source, n, i) && NoneNamedUpTo(rx, source, n, i + 1, j))
  }

  /** The quantified form of "no iteration from `i` up to `j` finds a name" gives the stepwise one. */
  lemma {:induction false} NoneNamedUpToAll(rx: Engine, source: seq<string>, n: nat, i: nat, j: nat)
    requires i <= j < n <= |source|
    requires forall j' :: i <= j' < j ==> !Named(rx, source, n, j')
    ensures NoneNamedUpTo(rx, source, n, i, j)
    decreases j - i
  {
    if i < j {
      NoneNamedUpToAll(rx, source, n, i + 1, j);
    }
  }

  /** Iterations `i` up to `j` find no name, so the scan reaches iteration `j` with the code gathered up to it. */
  lemma {:induction false} SkipUnnamed(rx: Engine, source: seq<string>, n: nat, i: nat, j: nat)
    requires i <= j < Min(n, 20) && n <= |source|
    requires NoneNamedUpTo(rx, source, n, i, j)
    ensures FindFrom(rx, source, n, i, CodeAfter(source, n, i)) == FindFrom(rx, source, n, j, CodeAfter(source, n, j))
    decreases j - i
  {
    if i < j {
      var here := FindFrom(rx, source, n, i, CodeAfter(source, n, i));
      var next := FindFrom(rx, source, n, i + 1, CodeAfter(source, n, i + 1));
      NextIteration(rx, source, n, i);
      assert here == next;
      SkipUnnamed(rx, source, n, i + 1, j);
    }
  }

  /**
   * From iteration `i` on, with the code gathered so far, the scan answers
   * the name of the first iteration that finds one.
   */
  lemma FindFromFirstNamed(rx: Engine, source: seq<string>, n: nat, i: nat, j: nat)
    requires i <= j < Min(n, 20) && n <= |source|
    requires Named(rx, source, n, j) && NoneNamedUpTo(rx, source, n, i, j)
    ensures FindFrom(rx, source, n, i, CodeAfter(source, n, i)) == Ok(MatchName(rx, CodeAfter(source, n, j + 1)).value)
  {
    SkipUnnamed(rx, source, n, i, j);
    NamedIteration(rx, source, n, j);
  }

  /**
   * The scan throws TypeError exactly when the line number is a decimal
   * past the end of the source; otherwise it answers the name the first
   * matching iteration finds in the code gathered, or "(?)" when the line
   * number is no decimal or no iteration finds a name; never an empty name.
   */
  lemma FindOutcome(rx: Engine, source: seq<string>, lineNo: string)
    ensures FindSpec(rx, source, lineNo).Err? <==> IsDecimal(lineNo) && DecimalValue(lineNo) > |source|
    ensures FindSpec(rx, source, lineNo).Err? ==> FindSpec(rx, source, lineNo).error == TypeError
    ensures FindSpec(rx, source, lineNo).Ok? ==> FindSpec(rx, source, lineNo).value != ""
    ensures !IsDecimal(lineNo) ==> FindSpec(rx, source, lineNo) == Ok(Unknown)
    ensures IsDecimal(lineNo) && DecimalValue(lineNo) <= |source| ==>
      var n := DecimalValue(lineNo);
      (forall j :: 0 <= j < Min(n, 20) ==> !Named(rx, source, n, j)) ==> FindSpec(rx, source, lineNo) == Ok(Unknown)
    ensures IsDecimal(lineNo) && DecimalValue(lineNo) <= |source| ==>
      var n := DecimalValue(lineNo);
      forall j: nat :: FirstNamed(rx, source, n, 0, j) ==>
        FindSpec(rx, source, lineNo) == Ok(MatchName(rx, CodeAfter(source, n, j + 1)).value)
  {
    if IsDecimal(lineNo) {
      FindFromThrows(rx, source, DecimalValue(lineNo), 0, "");
      var n := DecimalValue(lineNo);
      if n <= |source| {
        if forall j :: 0 <= j < Min(n, 20) ==> !Named(rx, source, n, j) {
          FindFromNoneNamed(rx, source, n, 0);
        }
        forall j: nat | FirstNamed(rx, source, n, 0, j)
          ensures FindSpec(rx, source, lineNo) == Ok(MatchName(rx, CodeAfter(source, n, j + 1)).value)
        {
          NoneNamedUpToAll(rx, source, n, 0, j);
          FindFromFirstNamed(rx, source, n, 0, j);
        }
      }
    }
  }

  /** Two sources that agree on the window of lines below n give the same scan from iteration i on. */
  lemma {:induction false} FindFromWindow(rx: Engine, a: seq<string>, b: seq<string>, n: nat, i: nat, code: string)
    requires i <= Min(n, 20) && n <= |a| && n <= |b|
    requires forall k :: n - Min(n, 20) <= k < n ==> a[k] == b[k]
    ensures FindFrom(rx, a, n, i, code) == FindFrom(rx, b, n, i, code)
    decreases Min(n, 20) - i
  {
    if i < Min(n, 20) {
      assert a[n - i - 1] == b[n - i - 1];
      var line := StripComment(a[n - i - 1]);
      FindFromWindow(rx, a, b, n, i + 1, if line == "" then code else line + code);
    }
  }

  /**
   * Only lines `lineNo - min(lineNo, 20)` to `lineNo - 1` (0-based) are
   * read: sources that agree there give the same answer.
   */
  lemma FindReadsWindow(rx: Engine, a: seq<string>, b: seq<string>, lineNo: string)
    requires IsDecimal(lineNo) && DecimalValue(lineNo) <= |a| && DecimalValue(lineNo) <= |b|
    requires var n := DecimalValue(lineNo);
      forall k :: n - Min(n, 20) <= k < n ==> a[k] == b[k]
    ensures FindSpec(rx, a, lineNo) == FindSpec(rx, b, lineNo)
  {
    FindFromWindow(rx, a, b, DecimalValue(lineNo), 0, "");
  }

  /**
   * The first line tried is the entry's own line: when its code matches
   * the expression pattern, that name is the answer.
   */
  lemma FindOwnLineFirst(rx: Engine, source: seq<string>, lineNo: string, name: string)
    requires IsDecimal(lineNo) && 0 < DecimalValue(lineNo) <= |source|
    requires var line := StripComment(source[DecimalValue(lineNo) - 1]);
      line != "" && NameIn(rx.exec(FunctionExpressionRE, line)) == Some(name)
    ensures FindSpec(rx, source, lineNo) == Ok(name)
  {
    var line := StripComment(source[DecimalValue(lineNo) - 1]);
    assert line + "" == line;
  }

  /** `ajax(url).split('\n')`: the source lines a URL yields. */
  function SourceLines(fetch: string -> string, url: string): seq<string> {
    Split(fetch(url), '\n')
  }

  /**
   * What `getSource(url)` answers. For a name `sourceCache` inherits from
   * Object.prototype, `url in sourceCache` holds from the start, and the
   * inherited function or object it answers has no line at any index: it
   * reads like a source without lines.
   */
  function CachedSource(fetch: string -> string, url: string): seq<string> {
    if url in InheritedNames then [] else SourceLines(fetch, url)
  }

  /** `sourceCache` after `getSource(url)`: a new entry only for a URL neither cached nor inherited. */
  function AfterGetSource(sources: map<string, seq<string>>, fetch: string -> string, url: string)
    : map<string, seq<string>>
  {
    if url in InheritedNames || url in sources then sources else sources[url := SourceLines(fetch, url)]
  }

  /** Every cached entry holds what its URL yields, and none shadows an inherited name. */
  ghost predicate CachedAsFetched(sources: map<string, seq<string>>, fetch: string -> string) {
    forall url :: url in sources ==> sources[url] == SourceLines(fetch, url) && url !in InheritedNames
  }

  /** The URLs requested are exactly the cached ones, each requested once. */
  ghost predicate RequestedOnce(sources: map<string, seq<string>>, fetched: seq<string>) {
    (forall url :: url in sources <==> url in fetched)
    && (forall i, j :: 0 <= i < j < |fetched| ==> fetched[i] != fetched[j])
  }

  /**
   * `sourceCache`: the fetched sources by URL. `fetched` records every
   * request the cache made, in order.
   */
  class SourceCache {
    var sources: map<string, seq<string>>
    ghost var fetched: seq<string>

    /**
     * Every cached entry holds what its URL yields; the URLs requested are
     * exactly the cached ones, each requested once.
     */
    ghost predicate Valid(fetch: string -> string)
      reads this
    {
      CachedAsFetched(sources, fetch) && RequestedOnce(sources, fetched)
    }

    /** `sourceCache = {}`. */
    constructor ()
      ensures sources == map[] && fetched == []
    {
      sources := map[];
      fetched := [];
    }

    /**
     * `getSource(url)`: fetches only a URL that is neither cached nor
     * inherited, never removes or overwrites an entry, and answers repeated
     * calls with the cached lines.
     */
    method GetSource(url: string, fetch: string -> string) returns (lines: seq<string>)
      requires Valid(fetch)
      modifies this
      ensures Valid(fetch)
      ensures lines == CachedSource(fetch, url)
      ensures sources == AfterGetSource(old(sources), fetch, url)
      ensures url !in InheritedNames ==> url in sources && sources[url] == lines
      ensures url in InheritedNames || url in old(sources) ==> fetched == old(fetched)
      ensures url !in InheritedNames && url !in old(sources) ==> fetched == old(fetched) + [url]
    {
      if url in InheritedNames {
        // `url in sourceCache` holds, and the inherited value is answered
        lines := [];
        return;
      }
      if url !in sources {
        sources := sources[url := Split(fetch(url), '\n')];
        fetched := fetched + [url];
      }
      lines := sources[url];
    }
  }

  /**
   * The source of an inherited name is never fetched, and scanning it
   * throws for a positive decimal line number (`source[n]` is undefined),
   * and answers "(?)" for any other.
   */
  lemma InheritedSourceScan(rx: Engine, fetch: string -> string, sources: map<string, seq<string>>, url: string, lineNo: string)
    requires url in InheritedNames
    ensures AfterGetSource(sources, fetch, url) == sources
    ensures IsDecimal(lineNo) && DecimalValue(lineNo) > 0 ==> FindSpec(rx, CachedSource(fetch, url), lineNo) == Err(TypeError)
    ensures !(IsDecimal(lineNo) && DecimalValue(lineNo) > 0) ==> FindSpec(rx, CachedSource(fetch, url), lineNo) == Ok(Unknown)
  {
    FindOutcome(rx, [], lineNo);
  }
}
