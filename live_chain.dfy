/**
 * The `other` formatter: where the error carries no stack, the tracer
 * walks the live chain of callers (`curr.caller`) and writes one frame per
 * call from the function's source text and its `arguments`. The chain is
 * an input here: the calls from the innermost outwards.
 */
module LiveChain {
  import opened Js
  import opened Regex
  import opened Frames
  import opened Arguments

  /**
   * One call of the chain: the function's `toString()` text and its
   * `arguments`, None where that property is falsy.
   */
  datatype LiveFrame = LiveFrame(source: string, arguments: Option<seq<JsValue>>)

  const FunctionNameRE: Pattern := Pattern("function\\s*([\\w\\-$]+)?\\s*\\(", "i")

  /** `fnRE.test(curr.toString()) ? RegExp.$1 || ANON : ANON`. */
  function CallName(rx: Engine, f: LiveFrame): string {
    match rx.exec(FunctionNameRE, f.source)
    case Some(m) => GroupOr(m, 1, Anon)
    case None => Anon
  }

  /** `fn + '(' + stringifyArguments(args) + ')'`. */
  function CallText(rx: Engine, f: LiveFrame): string {
    var args := match f.arguments case Some(a) => a case None => [];
    CallName(rx, f) + "(" + Stringify(args) + ")"
  }

  /** The frame the full edition writes for a call: with an empty location. */
  function CallFrame(rx: Engine, f: LiveFrame): string {
    CallText(rx, f) + "@::"
  }

  /** The frame of a call whose arguments are present, as the loop writes it. */
  lemma CallFrameOf(rx: Engine, f: LiveFrame, args: seq<JsValue>)
    requires f.arguments == Some(args)
    ensures CallFrame(rx, f) == CallName(rx, f) + "(" + Stringify(args) + ")@::"
  {
    assert ")@::" == ")" + "@::";
  }

  const GlobalCodeFrame: string := "global code@::"

  /** `(!!limit && limit < 10) ? limit : 10`. */
  function MaxStackSize(limit: nat): (r: nat)
    ensures 1 <= r <= 10
    ensures 0 < limit < 10 ==> r == limit
  {
    if limit != 0 && limit < 10 then limit else 10
  }

  /**
   * How many calls the walk visits: it stops at the end of the chain, at
   * the first call whose `arguments` is falsy, or when `max` frames are
   * written.
   */
  function Depth(chain: seq<LiveFrame>, max: nat): (n: nat)
    ensures n <= max && n <= |chain|
    ensures forall k :: 0 <= k < n ==> chain[k].arguments.Some?
    ensures n < max && n < |chain| ==> chain[n].arguments.None?
    decreases max
  {
    if |chain| == 0 || max == 0 || chain[0].arguments.None? then 0
    else 1 + Depth(chain[1..], max - 1)
  }

  /** The frames the full edition writes for the first `n` calls. */
  function CallFrames(rx: Engine, chain: seq<LiveFrame>, n: nat): (r: seq<string>)
    requires n <= |chain|
    ensures |r| == n
    ensures forall k :: 0 <= k < n ==> r[k] == CallFrame(rx, chain[k])
  {
    if n == 0 then [] else CallFrames(rx, chain, n - 1) + [CallFrame(rx, chain[n - 1])]
  }

  /** The calls the lite edition writes for the first `n` calls. */
  function CallTexts(rx: Engine, chain: seq<LiveFrame>, n: nat): (r: seq<string>)
    requires n <= |chain|
    ensures |r| == n
    ensures forall k :: 0 <= k < n ==> r[k] == CallText(rx, chain[k])
  {
    if n == 0 then [] else CallTexts(rx, chain, n - 1) + [CallText(rx, chain[n - 1])]
  }

  /**
   * What the full edition's `other(curr, limit)` returns: a frame per
   * visited call, then "global code@::" when there is room for it.
   */
  function OtherSpec(rx: Engine, chain: seq<LiveFrame>, limit: nat): seq<string> {
    var max := MaxStackSize(limit);
    var n := Depth(chain, max);
    CallFrames(rx, chain, n) + (if n < max then [GlobalCodeFrame] else [])
  }

  /** What the lite edition's `other(curr)` returns: at most ten calls, no location, no global code. */
  function LiteOtherSpec(rx: Engine, chain: seq<LiveFrame>): seq<string> {
    CallTexts(rx, chain, Depth(chain, 10))
  }

  /** Only `Depth` meets the walk's three stopping conditions. */
  lemma {:induction false} DepthUnique(chain: seq<LiveFrame>, max: nat, i: nat)
    requires i <= max && i <= |chain|
    requires forall k :: 0 <= k < i ==> chain[k].arguments.Some?
    requires i == max || i == |chain| || chain[i].arguments.None?
    ensures i == Depth(chain, max)
    decreases i
  {
    if i > 0 {
      assert chain[0].arguments.Some?;
      forall k | 0 <= k < i - 1
        ensures chain[1..][k].arguments.Some?
      {
        assert chain[1..][k] == chain[k + 1];
      }
      DepthUnique(chain[1..], max - 1, i - 1);
    }
  }

  /** A visited call with arguments, below the cap, is not the last one visited. */
  lemma DepthStep(chain: seq<LiveFrame>, max: nat, i: nat)
    requires i <= Depth(chain, max) && i < |chain| && i < max && chain[i].arguments.Some?
    ensures i + 1 <= Depth(chain, max)
  {
  }

  /** The walk stops at `Depth`. */
  lemma DepthStop(chain: seq<LiveFrame>, max: nat, i: nat)
    requires i <= Depth(chain, max)
    requires i == max || i == |chain| || chain[i].arguments.None?
    ensures i == Depth(chain, max)
  {
  }

  /** The full edition's `formatters.other`. */
  method OtherFormat(rx: Engine, chain: seq<LiveFrame>, limit: nat) returns (stack: seq<string>)
    ensures stack == OtherSpec(rx, chain, limit)
  {
    var max := MaxStackSize(limit);
    stack := [];
    var i := 0;
    while i < |chain| && chain[i].arguments.Some? && |stack| < max
      invariant i <= Depth(chain, max) && |stack| == i
      invariant stack == CallFrames(rx, chain, i)
      decreases max - i
    {
      DepthStep(chain, max, i);
      var args := chain[i].arguments.value;
      var text := StringifyArguments(args);
      CallFrameOf(rx, chain[i], args);
      stack := stack + [CallName(rx, chain[i]) + "(" + text + ")@::"];
      i := i + 1;
    }
    DepthStop(chain, max, i);
    if |stack| < max {
      stack := stack + [GlobalCodeFrame];
    }
  }

  /** The lite edition's `formatters.other`. */
  method LiteOtherFormat(rx: Engine, chain: seq<LiveFrame>) returns (stack: seq<string>)
    ensures stack == LiteOtherSpec(rx, chain)
  {
    stack := [];
    var i := 0;
    while i < |chain| && chain[i].arguments.Some? && |stack| < 10
      invariant i <= Depth(chain, 10) && |stack| == i
      invariant stack == CallTexts(rx, chain, i)
      decreases 10 - i
    {
      DepthStep(chain, 10, i);
      var args := chain[i].arguments.value;
      var text := StringifyArguments(args);
      stack := stack + [CallName(rx, chain[i]) + "(" + text + ")"];
      i := i + 1;
    }
    DepthStop(chain, 10, i);
  }

  /**
   * The full edition writes at most `MaxStackSize(limit)` frames: a frame
   * per call whose arguments are present, in chain order, and the global
   * code frame last exactly when fewer calls were visited than allowed.
   */
  lemma OtherShape(rx: Engine, chain: seq<LiveFrame>, limit: nat)
    ensures var out := OtherSpec(rx, chain, limit);
      var n := Depth(chain, MaxStackSize(limit));
      |out| <= MaxStackSize(limit)
      && (forall k :: 0 <= k < n ==> out[k] == CallFrame(rx, chain[k]))
      && (|out| == n + 1 <==> n < MaxStackSize(limit))
      && (|out| == n + 1 ==> out[n] == GlobalCodeFrame)
  {
  }

  /** The lite edition writes at most ten calls and stops at the first call without arguments. */
  lemma LiteOtherShape(rx: Engine, chain: seq<LiveFrame>)
    ensures var out := LiteOtherSpec(rx, chain);
      |out| <= 10 && |out| <= |chain|
      && (forall k :: 0 <= k < |out| ==> chain[k].arguments.Some? && out[k] == CallText(rx, chain[k]))
      && (|out| < 10 && |out| < |chain| ==> chain[|out|].arguments.None?)
  {
  }

  /**
   * Every frame the full edition writes parses into its call text (or
   * "global code") as the function, with an empty file, line and column.
   */
  lemma OtherFramesParse(rx: Engine, chain: seq<LiveFrame>, limit: nat, k: nat)
    requires k < |OtherSpec(rx, chain, limit)|
    ensures var out := OtherSpec(rx, chain, limit);
      var n := Depth(chain, MaxStackSize(limit));
      ParseFrame(out[k]) == FrameFields(if k < n then CallText(rx, chain[k]) else "global code", "", Some(""), "")
  {
    var out := OtherSpec(rx, chain, limit);
    var n := Depth(chain, MaxStackSize(limit));
    if k < n {
      assert out[k] == CallFrames(rx, chain, n)[k] == CallText(rx, chain[k]) + "@::";
      ParseLiveFrame(CallText(rx, chain[k]));
    } else {
      assert out[k] == GlobalCodeFrame == "global code" + "@::";
      ParseLiveFrame("global code");
    }
  }
}
