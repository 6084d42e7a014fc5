/**
 * `stringifyArguments`: the arguments of a live call rendered as text,
 * each value by what `=== undefined`, `=== null` and its `constructor`
 * tell about it, joined by ','. Arrays of fewer than three items are
 * rendered in full; longer ones only by their first and last item.
 *
 * Only values of the listed kinds are assigned into the result array. A
 * value of any other kind leaves a hole: in the middle the hole joins as
 * "", but the array ends at its last assigned item, so holes after it
 * contribute nothing, not even their ','.
 */
module Arguments {
  import opened Js
  import opened JsText

  /** The text one argument contributes; "" where it leaves a hole. */
  function RenderValue(v: JsValue): string
    decreases v
  {
    match v
    case Undefined => "undefined"
    case Null => "null"
    case Arr(items) =>
      if |items| < 3 then "[" + Stringify(items) + "]"
      // `slice.call(arg, 0, 1)` and `slice.call(arg, -1)` hold one item each
      else "[" + RenderValue(items[0]) + "..." + RenderValue(items[|items| - 1]) + "]"
    case PlainObject => "#object"
    case Func => "#function"
    case Str(s) => "\"" + s + "\""
    case Num(n) => IntToString(n)
    case OtherValue => ""
  }

  /** The values that the loop assigns into `result`. */
  predicate Assigned(v: JsValue) {
    !v.OtherValue?
  }

  /** The length of `result` after the loop: one past the last assigned argument, 0 if none is. */
  function AssignedLength(args: seq<JsValue>): (n: nat)
    ensures n <= |args|
    ensures n > 0 ==> Assigned(args[n - 1])
    ensures forall k :: n <= k < |args| ==> !Assigned(args[k])
  {
    if args == [] then 0
    else if Assigned(args[|args| - 1]) then |args|
    else AssignedLength(args[..|args| - 1])
  }

  /** The rendering of each argument, in order. */
  function RenderAll(args: seq<JsValue>): (r: seq<string>)
    ensures |r| == |args|
    ensures forall k :: 0 <= k < |args| ==> r[k] == RenderValue(args[k])
    decreases args, 0
  {
    if args == [] then []
    else RenderAll(args[..|args| - 1]) + [RenderValue(args[|args| - 1])]
  }

  /** `result.join(',')`: the renderings up to the last assigned argument. */
  function Stringify(args: seq<JsValue>): string
    decreases args, 1
  {
    Join(RenderAll(args)[..AssignedLength(args)], ",")
  }

  /** How much a value holds: a bound on the recursion of the method below. */
  function Size(v: JsValue): nat
    decreases v
  {
    match v
    case Arr(items) => 1 + SizeAll(items)
    case _ => 1
  }

  function SizeAll(vs: seq<JsValue>): nat
    decreases vs
  {
    if vs == [] then 0 else Size(vs[0]) + SizeAll(vs[1..])
  }

  lemma SizeAllSingle(v: JsValue)
    ensures SizeAll([v]) == Size(v)
  {
    assert [v][1..] == [];
  }

  /** Every argument is smaller than the whole list. */
  lemma {:induction false} SizeAllElement(vs: seq<JsValue>, i: nat)
    requires i < |vs|
    ensures Size(vs[i]) <= SizeAll(vs)
    decreases i
  {
    if i > 0 {
      SizeAllElement(vs[1..], i - 1);
    }
  }

  /**
   * The loop of `stringifyArguments`: assigns `result[i]` for each argument
   * of a listed kind, which fills any holes before it, and recurses into
   * arrays, on slices of one item for long ones. `result` holds "" in its
   * holes, as `join` reads them.
   */
  method StringifyArguments(args: seq<JsValue>) returns (s: string)
    ensures s == Stringify(args)
    decreases SizeAll(args)
  {
    var result: seq<string> := [];
    var i := 0;
    while i < |args|
      invariant 0 <= i <= |args|
      invariant |result| == AssignedLength(args[..i])
      invariant forall k :: 0 <= k < |result| ==> result[k] == RenderValue(args[k])
    {
      assert args[..i + 1] == args[..i] + [args[i]];
      AssignedLengthSnoc(args[..i], args[i]);
      if !args[i].OtherValue? {
        var text := RenderArgument(args, i);
        var holes := seq(i - |result|, k => "");
        FillHoles(args, i, result, holes, text);
        result := result + holes + [text];
      }
      // otherwise no branch assigns `result[i]`
      i := i + 1;
    }
    assert args[..i] == args;
    assert result == RenderAll(args)[..AssignedLength(args)];
    s := Join(result, ",");
  }

  /** One more argument moves the end of the array only when it is assigned. */
  lemma AssignedLengthSnoc(a: seq<JsValue>, v: JsValue)
    ensures AssignedLength(a + [v]) == if Assigned(v) then |a| + 1 else AssignedLength(a)
  {
    assert (a + [v])[..|a|] == a;
  }

  /** Assigning `result[i]` reads as "" in the holes between the old end and `i`. */
  lemma FillHoles(args: seq<JsValue>, i: nat, result: seq<string>, holes: seq<string>, text: string)
    requires i < |args| && |result| == AssignedLength(args[..i])
    requires forall k :: 0 <= k < |result| ==> result[k] == RenderValue(args[k])
    requires holes == seq(i - |result|, k => "") && text == RenderValue(args[i])
    ensures forall k :: 0 <= k < |result + holes + [text]| ==> (result + holes + [text])[k] == RenderValue(args[k])
  {
    forall k | |result| <= k < i
      ensures RenderValue(args[k]) == ""
    {
      assert args[..i][k] == args[k];
    }
  }

  /** The text the loop assigns for an argument of a listed kind. */
  method RenderArgument(args: seq<JsValue>, i: nat) returns (text: string)
    requires i < |args| && !args[i].OtherValue?
    ensures text == RenderValue(args[i])
    decreases SizeAll(args), 0
  {
    match args[i] {
      case Undefined => text := "undefined";
      case Null => text := "null";
      case Arr(items) =>
        SizeAllElement(args, i);
        if |items| < 3 {
          var inner := StringifyArguments(items);
          text := "[" + inner + "]";
        } else {
          SizeAllElement(items, 0);
          SizeAllElement(items, |items| - 1);
          assert items[..1] == [items[0]];
          assert items[|items| - 1..] == [items[|items| - 1]];
          SizeAllSingle(items[0]);
          SizeAllSingle(items[|items| - 1]);
          var first := StringifyArguments(items[..1]);
          var last := StringifyArguments(items[|items| - 1..]);
          StringifySingle(items[0]);
          StringifySingle(items[|items| - 1]);
          text := "[" + first + "..." + last + "]";
        }
      case PlainObject => text := "#object";
      case Func => text := "#function";
      case Str(str) => text := "\"" + str + "\"";
      case Num(n) => text := IntToString(n);
    }
  }

  /** A single argument is rendered without any separator, and a hole alone as "". */
  lemma StringifySingle(v: JsValue)
    ensures Stringify([v]) == RenderValue(v)
  {
    assert RenderAll([v]) == [RenderValue(v)];
  }

  /** Rendering a concatenation renders each part. */
  lemma RenderAllConcat(a: seq<JsValue>, b: seq<JsValue>)
    ensures RenderAll(a + b) == RenderAll(a) + RenderAll(b)
  {
    var both := RenderAll(a) + RenderAll(b);
    forall k | 0 <= k < |a + b|
      ensures RenderAll(a + b)[k] == both[k]
    {
      if k < |a| {
        assert (a + b)[k] == a[k];
      } else {
        assert (a + b)[k] == b[k - |a|];
      }
    }
  }

  /** Values after the last assigned one do not change the array's length. */
  lemma {:induction false} AssignedLengthHoles(a: seq<JsValue>, b: seq<JsValue>)
    requires forall k :: 0 <= k < |b| ==> !Assigned(b[k])
    ensures AssignedLength(a + b) == AssignedLength(a)
    decreases |b|
  {
    if b == [] {
      assert a + b == a;
    } else {
      assert (a + b)[..|a + b| - 1] == a + b[..|b| - 1];
      AssignedLengthHoles(a, b[..|b| - 1]);
    }
  }

  /** With an assigned value in `b`, the array of `a + b` reaches into `b`. */
  lemma {:induction false} AssignedLengthConcat(a: seq<JsValue>, b: seq<JsValue>)
    requires AssignedLength(b) > 0
    ensures AssignedLength(a + b) == |a| + AssignedLength(b)
    decreases |b|
  {
    if !Assigned(b[|b| - 1]) {
      assert (a + b)[..|a + b| - 1] == a + b[..|b| - 1];
      AssignedLengthConcat(a, b[..|b| - 1]);
    }
  }

  /** Arguments of unlisted kinds at the end leave no trace: not even a ','. */
  lemma TrailingHolesDropped(a: seq<JsValue>, b: seq<JsValue>)
    requires forall k :: 0 <= k < |b| ==> !Assigned(b[k])
    ensures Stringify(a + b) == Stringify(a)
  {
    AssignedLengthHoles(a, b);
    var n := AssignedLength(a);
    RenderAllConcat(a, b);
    assert RenderAll(a + b)[..n] == RenderAll(a)[..n];
  }

  /** `f(1, true)` renders its arguments as "1". */
  lemma TrailingHoleExample()
    ensures Stringify([Num(1), OtherValue]) == "1"
  {
    TrailingHolesDropped([Num(1)], [OtherValue]);
    assert [Num(1)] + [OtherValue] == [Num(1), OtherValue];
    StringifySingle(Num(1));
    assert NatToString(1) == "1";
  }

  /**
   * Arguments render independently when the first list ends with an
   * assigned value and the second holds one: the two texts join with one ','.
   */
  lemma StringifyConcat(a: seq<JsValue>, b: seq<JsValue>)
    requires |a| >= 1 && Assigned(a[|a| - 1]) && AssignedLength(b) > 0
    ensures Stringify(a + b) == Stringify(a) + "," + Stringify(b)
  {
    var nb := AssignedLength(b);
    var ra, rb := RenderAll(a), RenderAll(b);
    AssignedLengthConcat(a, b);
    RenderAllConcat(a, b);
    var pieces := RenderAll(a + b)[..AssignedLength(a + b)];
    assert pieces == ra + rb[..nb] by {
      assert (ra + rb)[..|ra| + nb] == ra + rb[..nb];
    }
    assert AssignedLength(a) == |a|;
    assert RenderAll(a)[..AssignedLength(a)] == ra;
    JoinAppend(ra, rb[..nb], ",");
  }

  /** A long array shows only its ends: its middle items never matter. */
  lemma LongArrayShowsEnds(items: seq<JsValue>, other: seq<JsValue>)
    requires |items| >= 3 && |other| >= 3
    requires items[0] == other[0] && items[|items| - 1] == other[|other| - 1]
    ensures RenderValue(Arr(items)) == RenderValue(Arr(other))
  {
  }

  /**
   * Without an assigned argument the text is empty. Otherwise, when no
   * rendering holds ',', splitting the text on ',' gives back the
   * renderings up to the last assigned argument, one piece each.
   */
  lemma StringifySplits(args: seq<JsValue>)
    requires forall k :: 0 <= k < |args| ==> ',' !in RenderValue(args[k])
    ensures AssignedLength(args) == 0 ==> Stringify(args) == ""
    ensures AssignedLength(args) > 0 ==>
      Split(Stringify(args), ',') == RenderAll(args)[..AssignedLength(args)]
      && |Split(Stringify(args), ',')| == AssignedLength(args)
  {
    var n := AssignedLength(args);
    if n > 0 {
      var pieces := RenderAll(args)[..n];
      forall k | 0 <= k < n
        ensures ',' !in pieces[k]
      {
        assert pieces[k] == RenderValue(args[k]);
      }
      SplitJoin(pieces, ',');
    }
  }

  /** Digits hold no ','. */
  lemma NatToStringHasNoComma(n: nat)
    ensures ',' !in NatToString(n)
  {
    var s := NatToString(n);
    assert forall k :: 0 <= k < |s| ==> IsDigit(s[k]);
  }

  /**
   * Non-negative numbers survive the round trip: splitting the text on ','
   * and reading each piece as a decimal gives back the numbers.
   */
  lemma NumbersRoundTrip(ns: seq<nat>)
    requires |ns| >= 1
    ensures var pieces := Split(Stringify(seq(|ns|, k requires 0 <= k < |ns| => Num(ns[k]))), ',');
      |pieces| == |ns|
      && forall k :: 0 <= k < |ns| ==> IsDecimal(pieces[k]) && DecimalValue(pieces[k]) == ns[k]
  {
    var args := seq(|ns|, k requires 0 <= k < |ns| => Num(ns[k]));
    forall k | 0 <= k < |args|
      ensures ',' !in RenderValue(args[k])
    {
      NatToStringHasNoComma(ns[k]);
    }
    assert Assigned(args[|args| - 1]);
    StringifySplits(args);
    assert RenderAll(args)[..|args|] == RenderAll(args);
    forall k | 0 <= k < |ns|
      ensures IsDecimal(RenderAll(args)[k]) && DecimalValue(RenderAll(args)[k]) == ns[k]
    {
      DecimalRoundTrip(ns[k]);
    }
  }
}
