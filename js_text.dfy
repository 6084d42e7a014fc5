/**
 * String operations of JavaScript that the tracer relies on, written out:
 * `split` on one character, `split` on the tracer's newline pattern,
 * `join`, `indexOf`, and the decimal conversions between numbers and text.
 */
module JsText {
  import opened Js

  /** The characters matched by the tracer's NEW_LINES pattern. */
  predicate IsLineBreak(ch: char) {
    ch == '\n' || ch == '\r' || ch == '\U{2028}' || ch == '\U{2029}'
  }

  predicate NoLineBreak(s: string) {
    forall k :: 0 <= k < |s| ==> !IsLineBreak(s[k])
  }

  /** `s.split(c)` for a one-character separator: never empty, pieces free of `c`. */
  function Split(s: string, c: char): (r: seq<string>)
    ensures |r| >= 1
    ensures forall k :: 0 <= k < |r| ==> c !in r[k]
    decreases |s|
  {
    if s == [] then [""]
    else
      var rest := Split(s[1..], c);
      if s[0] == c then [""] + rest
      else [[s[0]] + rest[0]] + rest[1..]
  }

  /**
   * `s.split(/\r\n|[\n\r\u2028\u2029]/g)`: a CR LF pair is one break, any
   * other break character is one break on its own.
   */
  function SplitLines(s: string): (r: seq<string>)
    ensures |r| >= 1
    ensures forall k :: 0 <= k < |r| ==> NoLineBreak(r[k])
    decreases |s|
  {
    if s == [] then [""]
    else if |s| >= 2 && s[0] == '\r' && s[1] == '\n' then [""] + SplitLines(s[2..])
    else
      var rest := SplitLines(s[1..]);
      if IsLineBreak(s[0]) then [""] + rest
      else [[s[0]] + rest[0]] + rest[1..]
  }

  /** One match of the NEW_LINES pattern: CR LF, or a single break character. */
  predicate IsBreakToken(t: string) {
    t == "\r\n" || (|t| == 1 && IsLineBreak(t[0]))
  }

  /** The matches of the NEW_LINES pattern in `s`, in order, as `SplitLines` consumes them. */
  function BreaksIn(s: string): (r: seq<string>)
    ensures forall k :: 0 <= k < |r| ==> IsBreakToken(r[k])
    decreases |s|
  {
    if s == [] then []
    else if |s| >= 2 && s[0] == '\r' && s[1] == '\n' then ["\r\n"] + BreaksIn(s[2..])
    else if IsLineBreak(s[0]) then [[s[0]]] + BreaksIn(s[1..])
    else BreaksIn(s[1..])
  }

  /** The pieces with the breaks put back between them. */
  function Weave(pieces: seq<string>, breaks: seq<string>): string
    requires |pieces| == |breaks| + 1
    decreases |breaks|
  {
    if breaks == [] then pieces[0] else pieces[0] + breaks[0] + Weave(pieces[1..], breaks[1..])
  }

  /** Text in front of the first piece ends up in front of the woven text. */
  lemma WeaveFront(x: string, pieces: seq<string>, breaks: seq<string>)
    requires |pieces| == |breaks| + 1
    ensures Weave([x + pieces[0]] + pieces[1..], breaks) == x + Weave(pieces, breaks)
  {
    var front := [x + pieces[0]] + pieces[1..];
    assert front[1..] == pieces[1..];
    if breaks != [] {
      assert x + pieces[0] + breaks[0] + Weave(pieces[1..], breaks[1..])
        == x + (pieces[0] + breaks[0] + Weave(pieces[1..], breaks[1..]));
    }
  }

  /** A break token in front of text puts one more empty-fronted piece and one more break in front of its weave. */
  lemma WeaveBreak(t: string, pieces: seq<string>, breaks: seq<string>)
    requires |pieces| == |breaks| + 1
    ensures Weave([""] + pieces, [t] + breaks) == t + Weave(pieces, breaks)
  {
    var front := [""] + pieces;
    var marks := [t] + breaks;
    assert front[0] == "" && marks[0] == t;
    assert front[1..] == pieces && marks[1..] == breaks;
    assert Weave(front, marks) == "" + t + Weave(pieces, breaks);
    assert "" + t == t;
  }

  /**
   * `SplitLines` loses nothing but the breaks: there is one piece more
   * than there are breaks, and the pieces with the breaks put back
   * between them rebuild the text.
   */
  lemma {:induction false} SplitLinesRebuild(s: string)
    ensures |SplitLines(s)| == |BreaksIn(s)| + 1
    ensures Weave(SplitLines(s), BreaksIn(s)) == s
    decreases |s|
  {
    if s == [] {
    } else if |s| >= 2 && s[0] == '\r' && s[1] == '\n' {
      SplitLinesRebuild(s[2..]);
      WeaveBreak("\r\n", SplitLines(s[2..]), BreaksIn(s[2..]));
      assert s == "\r\n" + s[2..];
    } else if IsLineBreak(s[0]) {
      SplitLinesRebuild(s[1..]);
      WeaveBreak([s[0]], SplitLines(s[1..]), BreaksIn(s[1..]));
      assert s == [s[0]] + s[1..];
    } else {
      SplitLinesRebuild(s[1..]);
      WeaveFront([s[0]], SplitLines(s[1..]), BreaksIn(s[1..]));
      assert s == [s[0]] + s[1..];
    }
  }

  /** Text whose only breaks are '\n' splits on NEW_LINES exactly as on '\n'. */
  lemma {:induction false} SplitLinesOnNewlines(s: string)
    requires forall k :: 0 <= k < |s| ==> s[k] != '\r' && s[k] != '\U{2028}' && s[k] != '\U{2029}'
    ensures SplitLines(s) == Split(s, '\n')
    ensures Join(SplitLines(s), "\n") == s
    decreases |s|
  {
    if s != [] {
      SplitLinesOnNewlines(s[1..]);
    }
    JoinSplit(s, '\n');
  }

  /** `xs.join(sep)`. */
  function Join(xs: seq<string>, sep: string): string
  {
    if |xs| == 0 then ""
    else if |xs| == 1 then xs[0]
    else xs[0] + sep + Join(xs[1..], sep)
  }

  /** The last element of a non-empty sequence, as `Array.prototype.pop` returns it. */
  function Last<T>(xs: seq<T>): T
    requires |xs| > 0
  {
    xs[|xs| - 1]
  }

  /** Joining one more piece appends the separator and the piece. */
  lemma {:induction false} JoinSnoc(xs: seq<string>, y: string, sep: string)
    requires |xs| >= 1
    ensures Join(xs + [y], sep) == Join(xs, sep) + sep + y
    decreases |xs|
  {
    if |xs| > 1 {
      assert (xs + [y])[1..] == xs[1..] + [y];
      JoinSnoc(xs[1..], y, sep);
    }
  }

  /** Joining two non-empty lists puts one separator between their joins. */
  lemma {:induction false} JoinAppend(xs: seq<string>, ys: seq<string>, sep: string)
    requires |xs| >= 1 && |ys| >= 1
    ensures Join(xs + ys, sep) == Join(xs, sep) + sep + Join(ys, sep)
    decreases |xs|
  {
    assert (xs + ys)[0] == xs[0];
    assert (xs + ys)[1..] == xs[1..] + ys;
    if |xs| > 1 {
      JoinAppend(xs[1..], ys, sep);
    } else {
      assert xs[1..] + ys == ys;
    }
  }

  /** Splitting text that holds no separator yields the text itself. */
  lemma {:induction false} SplitNoSeparator(s: string, c: char)
    requires c !in s
    ensures Split(s, c) == [s]
    decreases |s|
  {
    if s != [] {
      assert c !in s[1..] by {
        forall k | 0 <= k < |s[1..]| ensures s[1..][k] != c { assert s[1..][k] == s[k + 1]; }
      }
      SplitNoSeparator(s[1..], c);
      assert s == [s[0]] + s[1..];
    }
  }

  /** A separator splits the text into the pieces of its two sides. */
  lemma {:induction false} SplitAround(a: string, b: string, c: char)
    ensures Split(a + [c] + b, c) == Split(a, c) + Split(b, c)
    decreases |a|
  {
    var s := a + [c] + b;
    if a == [] {
      assert s[0] == c && s[1..] == b;
    } else {
      assert s[0] == a[0] && s[1..] == a[1..] + [c] + b;
      SplitAround(a[1..], b, c);
    }
  }

  /** `s.split(c).join(c)` gives back `s`. */
  lemma {:induction false} JoinSplit(s: string, c: char)
    ensures Join(Split(s, c), [c]) == s
    decreases |s|
  {
    if s != [] {
      var rest := Split(s[1..], c);
      JoinSplit(s[1..], c);
      if s[0] == c {
        assert Split(s, c) == [""] + rest;
        assert ([""] + rest)[1..] == rest;
      } else {
        var r := Split(s, c);
        assert r == [[s[0]] + rest[0]] + rest[1..];
        if |rest| > 1 {
          assert r[1..] == rest[1..];
          assert Join(rest, [c]) == rest[0] + [c] + Join(rest[1..], [c]);
        }
      }
    }
  }

  /** Joining separator-free pieces and splitting again gives back the pieces. */
  lemma {:induction false} SplitJoin(xs: seq<string>, c: char)
    requires |xs| >= 1
    requires forall k :: 0 <= k < |xs| ==> c !in xs[k]
    ensures Split(Join(xs, [c]), c) == xs
    decreases |xs|
  {
    if |xs| == 1 {
      SplitNoSeparator(xs[0], c);
    } else {
      SplitJoin(xs[1..], c);
      SplitNoSeparator(xs[0], c);
      SplitAround(xs[0], Join(xs[1..], [c]), c);
      assert xs == [xs[0]] + xs[1..];
    }
  }

  /** Each piece split on `c`, the results one after another. */
  function SplitEach(xs: seq<string>, c: char): seq<string>
    decreases |xs|
  {
    if xs == [] then [] else Split(xs[0], c) + SplitEach(xs[1..], c)
  }

  /**
   * Splitting joined pieces splits each piece: the separators the join
   * puts in break the text exactly where the pieces meet.
   */
  lemma {:induction false} SplitJoinEach(xs: seq<string>, c: char)
    requires |xs| >= 1
    ensures Split(Join(xs, [c]), c) == SplitEach(xs, c)
    decreases |xs|
  {
    if |xs| == 1 {
      assert xs[1..] == [];
      assert Split(xs[0], c) + [] == Split(xs[0], c);
    } else {
      SplitJoinEach(xs[1..], c);
      SplitAround(xs[0], Join(xs[1..], [c]), c);
    }
  }

  /** Pieces free of `c` split into themselves. */
  lemma {:induction false} SplitEachNoSeparator(xs: seq<string>, c: char)
    requires forall k :: 0 <= k < |xs| ==> c !in xs[k]
    ensures SplitEach(xs, c) == xs
    decreases |xs|
  {
    if xs != [] {
      SplitNoSeparator(xs[0], c);
      SplitEachNoSeparator(xs[1..], c);
      assert [xs[0]] + xs[1..] == xs;
    }
  }

  /** `s.split(c).length` is one more than the number of `c` in `s`. */
  lemma {:induction false} SplitCount(s: string, c: char)
    ensures |Split(s, c)| == multiset(s)[c] + 1
    decreases |s|
  {
    if s != [] {
      SplitCount(s[1..], c);
      assert s == [s[0]] + s[1..];
      assert multiset(s) == multiset([s[0]]) + multiset(s[1..]);
    }
  }

  /** `Math.min(a, b)`. */
  function Min(a: int, b: int): int {
    if a <= b then a else b
  }

  /**
   * `xs.slice(start, end)` for non-negative bounds: both are clamped to the
   * length, and an end at or before the start gives nothing.
   */
  function Slice<T>(xs: seq<T>, start: nat, end: nat): (r: seq<T>)
    ensures |r| == if Min(end, |xs|) <= start then 0 else Min(end, |xs|) - start
    ensures forall k :: 0 <= k < |r| ==> r[k] == xs[start + k]
  {
    if Min(end, |xs|) <= start then [] else xs[start..Min(end, |xs|)]
  }

  /** A slice of a sequence of at most `cap` items, from a start within `cap`, ends within `cap`. */
  lemma SliceWithin<T>(xs: seq<T>, start: nat, end: nat, cap: nat)
    requires |xs| <= cap && start <= cap
    ensures start + |Slice(xs, start, end)| <= cap
  {
  }

  /** `sub` occurs in `s` starting at index `i`. */
  predicate OccursAt(s: string, sub: string, i: int) {
    0 <= i && i + |sub| <= |s| && s[i..i + |sub|] == sub
  }

  function IndexOfFrom(s: string, sub: string, from: nat): (r: int)
    requires from <= |s|
    ensures r == -1 || (from <= r && OccursAt(s, sub, r))
    ensures r == -1 ==> forall k :: from <= k <= |s| ==> !OccursAt(s, sub, k)
    ensures r != -1 ==> forall k :: from <= k < r ==> !OccursAt(s, sub, k)
    decreases |s| - from
  {
    if OccursAt(s, sub, from) then from
    else if from == |s| then -1
    else IndexOfFrom(s, sub, from + 1)
  }

  /** `s.indexOf(sub)`: the first index where `sub` occurs, or -1. */
  function IndexOf(s: string, sub: string): (r: int)
    ensures r == -1 || OccursAt(s, sub, r)
    ensures r == -1 <==> forall k :: 0 <= k <= |s| ==> !OccursAt(s, sub, k)
    ensures r != -1 ==> forall k :: 0 <= k < r ==> !OccursAt(s, sub, k)
  {
    IndexOfFrom(s, sub, 0)
  }

  predicate IsDigit(ch: char) {
    '0' <= ch <= '9'
  }

  predicate IsDecimal(s: string) {
    |s| > 0 && forall k :: 0 <= k < |s| ==> IsDigit(s[k])
  }

  function DigitChar(d: nat): (ch: char)
    requires d < 10
    ensures IsDigit(ch) && ch as int - '0' as int == d
  {
    (d + '0' as int) as char
  }

  /** The value of a string of decimal digits. */
  function DecimalValue(s: string): nat
    requires forall k :: 0 <= k < |s| ==> IsDigit(s[k])
  {
    if |s| == 0 then 0
    else
      assert IsDigit(s[|s| - 1]);
      DecimalValue(s[..|s| - 1]) * 10 + (s[|s| - 1] as int - '0' as int)
  }

  /** `String(n)` for a non-negative integer. */
  function NatToString(n: nat): (r: string)
    ensures IsDecimal(r)
    decreases n
  {
    if n < 10 then [DigitChar(n)]
    else NatToString(n / 10) + [DigitChar(n % 10)]
  }

  /** `String(n)` for an integer. */
  function IntToString(n: int): string {
    if n < 0 then "-" + NatToString(-n) else NatToString(n)
  }

  /** Reading back a rendered number gives the number. */
  lemma {:induction false} DecimalRoundTrip(n: nat)
    ensures DecimalValue(NatToString(n)) == n
    decreases n
  {
    var s := NatToString(n);
    if n >= 10 {
      DecimalRoundTrip(n / 10);
      assert s[..|s| - 1] == NatToString(n / 10);
    }
  }

  /**
   * `Number(s)` restricted to what a stack line number looks like: a plain
   * string of decimal digits gives its value; every other string is taken
   * as NaN (None).
   */
  function ToLineNumber(s: string): (r: Option<int>)
    ensures r.Some? <==> IsDecimal(s)
    ensures r.Some? ==> r.value >= 0
    ensures r.Some? ==> r.value == DecimalValue(s)
  {
    if IsDecimal(s) then Some(DecimalValue(s)) else None
  }
}
