// pkg/bruh/traceable_error.go: the `*bruh.TraceableError` node of the same
// package's other generation. It has neither `Message()` nor `Callers()`;
// its program counters are reached through `stackPC()`, and `FullStack`
// folds the stacks of the chain's traceable layers.
module Traceable {
  import opened Text
  import opened Chain
  import opened BruhStack
  import BruhError

  const ErrType: string := "*bruh.TraceableError"

  /**
   * `NewSkip(skip, msg)`: `callers(3 + skip)` with the stack emptied when it
   * belongs to a globally defined error (`stackPC.isGlobal`, supplied as
   * `isGlobal`). `stack` is the call stack seen by `runtime.Callers`.
   */
  function NewSkip(skip: nat, msg: string, stack: seq<PC>, isGlobal: seq<PC> -> bool): (e: Error)
    ensures e.goType == ErrType && e.text == msg && e.message.None?
    ensures e.link == Unwraps(None) && Unwrap(Some(e)).None?
    ensures e.callers.None? && HasStackPC(e, BruhPkg) && HasStack(e, BruhPkg) && HasFullStack(e, BruhPkg)
    ensures isGlobal(Callers(3 + skip, stack)) ==> e.stackPC.value == []
    ensures !isGlobal(Callers(3 + skip, stack)) ==> e.stackPC.value == Callers(3 + skip, stack)
  {
    Node(msg, None, 3 + skip, stack, isGlobal)
  }

  /** A `*bruh.TraceableError` node: `stackPC()`, `Stack()` and `FullStack()` of package bruh, no `Callers()`. */
  function Node(msg: string, err: Option<Error>, skip: nat, stack: seq<PC>, isGlobal: seq<PC> -> bool): Error
  {
    var st := Callers(skip, stack);
    Error(ErrType, msg, None, None, Some(if isGlobal(st) then [] else st), true, true, BruhPkg, None, Unwraps(err))
  }

  /** `New(msg)`: `NewSkip(1, msg)`. */
  function New(msg: string, stack: seq<PC>, isGlobal: seq<PC> -> bool): (e: Error)
    ensures e.text == msg && Unwrap(Some(e)).None?
  {
    NewSkip(1, msg, stack, isGlobal)
  }

  /**
   * `WrapSkip(err, skip, msg)`. There is no nil check: wrapping nil gives a
   * node whose `Error()` is `msg` and whose `Unwrap()` is nil.
   */
  function WrapSkip(err: Option<Error>, skip: nat, msg: string, stack: seq<PC>, isGlobal: seq<PC> -> bool): (e: Error)
    ensures e.goType == ErrType && e.text == msg && e.message.None?
    ensures Unwrap(Some(e)) == err
    ensures e.callers.None? && HasStackPC(e, BruhPkg) && HasStack(e, BruhPkg) && HasFullStack(e, BruhPkg)
    ensures isGlobal(Callers(3 + skip, stack)) ==> e.stackPC.value == []
    ensures !isGlobal(Callers(3 + skip, stack)) ==> e.stackPC.value == Callers(3 + skip, stack)
  {
    Node(msg, err, 3 + skip, stack, isGlobal)
  }

  /** `Wrap(err, msg)`: `WrapSkip(err, 1, msg)`. */
  function Wrap(err: Option<Error>, msg: string, stack: seq<PC>, isGlobal: seq<PC> -> bool): (e: Error)
    ensures e.text == msg && Unwrap(Some(e)) == err
  {
    WrapSkip(err, 1, msg, stack, isGlobal)
  }

  /** `Wrap(nil, msg)` is a real error: one node, its message, nothing below it. */
  lemma WrapNil(msg: string, stack: seq<PC>, isGlobal: seq<PC> -> bool)
    ensures var e := Wrap(None, msg, stack, isGlobal);
      Depth(Some(e)) == 1 && e.text == msg && Root(e) == e
  {
  }

  /** `TypeName`: the dynamic type with at most one leading "*" removed. */
  function TypeName(e: Error): (r: string)
    ensures HasPrefix(e.goType, "*") ==> "*" + r == e.goType
    ensures !HasPrefix(e.goType, "*") ==> r == e.goType
  {
    TrimPrefix(e.goType, "*")
  }

  lemma TypeNameOfTraceable(e: Error)
    requires e.goType == ErrType
    ensures TypeName(e) == "bruh.TraceableError"
  {
    assert ErrType == "*" + "bruh.TraceableError";
  }

  // ---- FullStack -----------------------------------------------------------

  /** The layers `FullStack` collects: `e` itself, then each traceable node below it until the first that is not. */
  function Layers(e: Error): (r: seq<seq<PC>>)
    requires HasStackPC(e, BruhPkg)
    ensures |r| > 0 && r[0] == e.stackPC.value
  {
    [e.stackPC.value] + StackPCLayers(Unwrap(Some(e)), BruhPkg)
  }

  /** `FullStack()`: the combination of the collected layers, resolved. */
  function FullStackOf(e: Error, resolve: PC -> Symbol): seq<Frame>
    requires HasStackPC(e, BruhPkg)
  {
    Frames(Combine(Layers(e)), resolve)
  }

  /** The combined program counters end with `e`'s own and are no more than all layers together. */
  lemma FullStackShape(e: Error)
    requires HasStackPC(e, BruhPkg)
    ensures var c := Combine(Layers(e));
      && |e.stackPC.value| <= |c| && c[|c| - |e.stackPC.value|..] == e.stackPC.value
      && |c| <= TotalLength(Layers(e))
  {
    CombineLength(Layers(e));
  }

  /** A node whose cause has no `stackPC()` gives just its own stack. */
  lemma FullStackOfSingleLayer(e: Error, resolve: PC -> Symbol)
    requires HasStackPC(e, BruhPkg)
    requires Unwrap(Some(e)).None? || !HasStackPC(Unwrap(Some(e)).value, BruhPkg)
    ensures FullStackOf(e, resolve) == Frames(e.stackPC.value, resolve)
  {
  }

  /**
   * A `*bruh.Err` has no `stackPC()`: wrapping one, `FullStack` stops at it
   * and gives just the traceable node's own stack.
   */
  lemma BruhErrCauseEndsFullStack(msg: string, text: string, errStack: seq<PC>,
                                  tmsg: string, stack: seq<PC>, isGlobal: seq<PC> -> bool, resolve: PC -> Symbol)
    ensures var e := Wrap(Some(BruhError.New(msg, text, errStack)), tmsg, stack, isGlobal);
      Layers(e) == [e.stackPC.value] && FullStackOf(e, resolve) == Frames(e.stackPC.value, resolve)
  {
    var e := Wrap(Some(BruhError.New(msg, text, errStack)), tmsg, stack, isGlobal);
    FullStackOfSingleLayer(e, resolve);
  }

  /** The collecting loop of `FullStack`. */
  method CollectLayers(e: Error) returns (errs: seq<seq<PC>>)
    requires HasStackPC(e, BruhPkg)
    ensures errs == Layers(e)
  {
    errs := [e.stackPC.value];
    var uerr := Some(e);
    while true
      invariant uerr.Some? && HasStackPC(uerr.value, BruhPkg)
      invariant errs + StackPCLayers(Unwrap(uerr), BruhPkg) == Layers(e)
      decreases Depth(uerr)
    {
      var next := Unwrap(uerr);
      if next.None? {
        break;
      }
      if !HasStackPC(next.value, BruhPkg) {
        break;
      }
      assert errs + StackPCLayers(next, BruhPkg) == (errs + [next.value.stackPC.value]) + StackPCLayers(Unwrap(next), BruhPkg);
      errs := errs + [next.value.stackPC.value];
      uerr := next;
    }
    assert errs + [] == errs;
  }

  /** The folding loop of `FullStack`: from the innermost layer outwards, each layer's new part in front of it. */
  method CombineLayers(errs: seq<seq<PC>>) returns (cbdStk: seq<PC>)
    requires |errs| > 0
    ensures cbdStk == Combine(errs)
  {
    cbdStk := errs[|errs| - 1];
    assert errs[|errs| - 1..] == [cbdStk];
    var i := |errs| - 2;
    while i >= 0
      invariant -1 <= i <= |errs| - 2
      invariant cbdStk == Combine(errs[i + 1..])
      decreases i
    {
      assert errs[i..][1..] == errs[i + 1..];
      var curStk := errs[i];
      var relStk := RelativeTo(cbdStk, curStk);
      cbdStk := relStk + curStk;
      i := i - 1;
    }
    assert errs[0..] == errs;
  }

  /** `FullStack()`: collect, fold from the innermost layer outwards, resolve. */
  method FullStack(e: Error, resolve: PC -> Symbol) returns (stack: seq<Frame>)
    requires HasStackPC(e, BruhPkg)
    ensures stack == FullStackOf(e, resolve)
  {
    var errs := CollectLayers(e);
    var cbdStk := CombineLayers(errs);
    stack := ToStack(cbdStk, resolve);
  }

  /** `stackPC()`: a fresh copy of the stored program counters. */
  method StackPC(e: Error) returns (stkCpy: array<PC>)
    requires HasStackPC(e, BruhPkg)
    ensures fresh(stkCpy) && stkCpy[..] == e.stackPC.value
  {
    stkCpy := new PC[|e.stackPC.value|];
    for k := 0 to |e.stackPC.value|
      invariant stkCpy[..k] == e.stackPC.value[..k]
    {
      stkCpy[k] := e.stackPC.value[k];
      assert stkCpy[..k + 1] == stkCpy[..k] + [stkCpy[k]];
      assert e.stackPC.value[..k + 1] == e.stackPC.value[..k] + [e.stackPC.value[k]];
    }
  }

  /** Writing into one copy changes neither the error nor a later copy. */
  method WriteIntoCopy(e: Error, k: nat, pc: PC) returns (stkCpy: array<PC>, again: array<PC>)
    requires HasStackPC(e, BruhPkg) && k < |e.stackPC.value|
    ensures stkCpy.Length == |e.stackPC.value| && stkCpy[k] == pc
    ensures again[..] == e.stackPC.value
  {
    stkCpy := StackPC(e);
    stkCpy[k] := pc;
    again := StackPC(e);
  }
}
