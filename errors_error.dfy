// pkg/errors/error.go: the oldest generation's `*errors.TraceableError`. A
// node keeps its own message, its cause and a raw stack; `FullStack` puts
// the stacks of the traceable layers below it in front of its own.
module Errors {
  import opened Text
  import opened Chain
  import BruhStack
  import ErrorsStack

  const ErrType: string := "*errors.TraceableError"

  /** A `*TraceableError` node: `Error()` is its own `msg`, `stackPC()` its stored counters. */
  function Node(msg: string, err: Option<Error>, stack: seq<PC>): (e: Error)
    ensures e.goType == ErrType && e.text == msg && e.message.None?
    ensures e.callers.None? && e.stackPC == Some(stack) && e.pkg == ErrorsPkg
    ensures HasStackPC(e, ErrorsPkg) && HasStack(e, ErrorsPkg) && HasFullStack(e, ErrorsPkg)
    ensures Unwrap(Some(e)) == err
  {
    Error(ErrType, msg, None, None, Some(stack), true, true, ErrorsPkg, None, Unwraps(err))
  }

  /** The overall call stack has room for `callers(skip)` to drop its two entries. */
  predicate CanCapture(skip: nat, stack: seq<PC>)
  {
    |BruhStack.RuntimeCallers(skip, stack, ErrorsStack.CallersDepth)| >= 2
  }

  /**
   * `NewSkip(skip, msg)`: `callers(3 + skip)`, kept unless it belongs to a
   * globally defined error.
   */
  function NewSkip(skip: nat, msg: string, stack: seq<PC>, resolve: PC -> Symbol): (e: Error)
    requires CanCapture(3 + skip, stack)
    ensures e.text == msg && Unwrap(Some(e)).None? && HasStackPC(e, ErrorsPkg)
    ensures ErrorsStack.IsGlobalStack(ErrorsStack.Callers(3 + skip, stack), resolve) ==> e.stackPC.value == []
    ensures !ErrorsStack.IsGlobalStack(ErrorsStack.Callers(3 + skip, stack), resolve) ==>
              e.stackPC.value == ErrorsStack.Callers(3 + skip, stack)
  {
    var st := ErrorsStack.Callers(3 + skip, stack);
    if ErrorsStack.IsGlobalStack(st, resolve) then Node(msg, None, []) else Node(msg, None, st)
  }

  /** `New(msg)`: `NewSkip(1, msg)`. */
  function New(msg: string, stack: seq<PC>, resolve: PC -> Symbol): (e: Error)
    requires CanCapture(4, stack)
    ensures e.text == msg && Unwrap(Some(e)).None?
  {
    NewSkip(1, msg, stack, resolve)
  }

  /** `wrap(err, skip, msg)`: nil for a nil cause, otherwise a node over it with `callers(4 + skip)`. */
  function WrapSkip(err: Option<Error>, skip: nat, msg: string, stack: seq<PC>): (r: Option<Error>)
    requires err.Some? ==> CanCapture(4 + skip, stack)
    ensures err.None? <==> r.None?
    ensures r.Some? ==> r.value.text == msg && Unwrap(r) == err
    ensures r.Some? ==> r.value.stackPC == Some(ErrorsStack.Callers(4 + skip, stack))
  {
    if err.None? then None else Some(Node(msg, err, ErrorsStack.Callers(4 + skip, stack)))
  }

  /** `Wrap(err, msg)`: `wrap(err, 0, msg)`. */
  function Wrap(err: Option<Error>, msg: string, stack: seq<PC>): (r: Option<Error>)
    requires err.Some? ==> CanCapture(4, stack)
    ensures err.None? <==> r.None?
    ensures r.Some? ==> r.value.text == msg && Unwrap(r) == err
  {
    WrapSkip(err, 0, msg, stack)
  }

  /** Wrapping adds exactly one node on top of the chain, and its root stays the root. */
  lemma WrapAddsOneNode(err: Error, skip: nat, msg: string, stack: seq<PC>)
    requires CanCapture(4 + skip, stack)
    ensures var r := WrapSkip(Some(err), skip, msg, stack);
      Depth(r) == Depth(Some(err)) + 1 && Root(r.value) == Root(err) && Nodes(r)[1..] == Nodes(Some(err))
  {
    var r := WrapSkip(Some(err), skip, msg, stack);
    assert Unwrap(r) == Some(err);
  }

  // ---- FullStack ---------------------------------------------------------------

  /**
   * The loop of `FullStack` from the stack collected so far: each further
   * layer, made relative to it, is put in front of it.
   */
  function Accumulate(cbd: seq<PC>, layers: seq<seq<PC>>): (r: seq<PC>)
    ensures |cbd| <= |r| && r[|r| - |cbd|..] == cbd
    decreases |layers|
  {
    if |layers| == 0 then cbd
    else
      var r := Accumulate(BruhStack.Relative(layers[0], cbd) + cbd, layers[1..]);
      assert r[|r| - |cbd|..] == (r[|r| - |BruhStack.Relative(layers[0], cbd) + cbd|..])[|BruhStack.Relative(layers[0], cbd)|..];
      r
  }

  /**
   * The combined counters: `e`'s own stack, then each deeper traceable
   * node's in front of it. `stackPC.RelativeTo`, which the loop calls, is
   * defined elsewhere in the library; `relativeStack` (`BruhStack.Relative`)
   * takes its place.
   */
  function FullPCs(e: Error): (r: seq<PC>)
    requires HasStackPC(e, ErrorsPkg)
    ensures |e.stackPC.value| <= |r| && r[|r| - |e.stackPC.value|..] == e.stackPC.value
  {
    Accumulate(e.stackPC.value, StackPCLayers(Unwrap(Some(e)), ErrorsPkg))
  }

  /** The combined stack is never longer than all the stacks it was built from. */
  lemma {:induction false} AccumulateLength(cbd: seq<PC>, layers: seq<seq<PC>>)
    ensures |Accumulate(cbd, layers)| <= |cbd| + BruhStack.TotalLength(layers)
    decreases |layers|
  {
    if |layers| > 0 {
      AccumulateLength(BruhStack.Relative(layers[0], cbd) + cbd, layers[1..]);
    }
  }

  /** A node whose cause has no `stackPC()` keeps just its own stack. */
  lemma FullStackOfSingleLayer(e: Error)
    requires HasStackPC(e, ErrorsPkg)
    requires Unwrap(Some(e)).None? || !HasStackPC(Unwrap(Some(e)).value, ErrorsPkg)
    ensures FullPCs(e) == e.stackPC.value
  {
  }

  /**
   * `FullStack()`: walk down the chain while nodes have `stackPC()`,
   * prepending each one's stack relative to the collected one. What
   * `toStack` of this package makes of the counters is defined elsewhere in
   * the library and is the parameter `toStack`.
   */
  method FullStack(e: Error, toStack: seq<PC> -> seq<Frame>) returns (stack: seq<Frame>)
    requires HasStackPC(e, ErrorsPkg)
    ensures stack == toStack(FullPCs(e))
  {
    var cbdStack := e.stackPC.value;
    var uerr := Some(e);
    while true
      invariant uerr.Some? && HasStackPC(uerr.value, ErrorsPkg)
      invariant Accumulate(cbdStack, StackPCLayers(Unwrap(uerr), ErrorsPkg)) == FullPCs(e)
      decreases Depth(uerr)
    {
      var next := Unwrap(uerr);
      if next.None? {
        break;
      }
      if !HasStackPC(next.value, ErrorsPkg) {
        break;
      }
      var nxtStack := next.value.stackPC.value;
      nxtStack := ErrorsStack.RelativeStack(cbdStack, nxtStack);
      cbdStack := nxtStack + cbdStack;
      uerr := next;
    }
    stack := toStack(cbdStack);
  }
}
