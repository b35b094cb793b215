// pkg/bruh/error.go: the `*bruh.Err` node. It keeps its own message, an
// optional cause and up to 32 program counters captured at construction.
module BruhError {
  import opened Chain
  import opened BruhStack

  const ErrType: string := "*bruh.Err"

  function NonNegative(skip: int): nat
  {
    if skip < 0 then 0 else skip
  }

  /**
   * A `*bruh.Err` node: `Message()`, `Callers()` and a bruh `Stack()`, but
   * neither `stackPC()` nor `FullStack()`.
   */
  function Node(text: string, msg: string, skip: int, stack: seq<PC>, err: Option<Error>): Error
  {
    Error(ErrType, text, Some(msg), Some(RuntimeCallers(2 + NonNegative(skip), stack, MaxStackDepth)), None,
          true, false, BruhPkg, None, Unwraps(err))
  }

  /**
   * `NewSkip(skip, msg)`. `text` is what `Error()` renders for the new node
   * (the package-level `Message`, which is not part of this model) and
   * `stack` the call stack seen by `runtime.Callers` inside `NewSkip`.
   */
  function NewSkip(skip: int, msg: string, text: string, stack: seq<PC>): (e: Error)
    ensures e.goType == ErrType && e.text == text
    ensures e.message == Some(msg)
    ensures e.link == Unwraps(None) && Unwrap(Some(e)).None?
    ensures e.callers.Some? && |e.callers.value| <= MaxStackDepth
    ensures 2 + NonNegative(skip) <= |stack| ==>
      |e.callers.value| <= |stack| - (2 + NonNegative(skip)) && e.callers.value == stack[2 + NonNegative(skip)..][..|e.callers.value|]
    ensures e.stackPC.None? && HasStack(e, BruhPkg) && !e.hasFullStack && e.context.None?
  {
    Node(text, msg, skip, stack, None)
  }

  /** `New(msg)`: `NewSkip(1, msg)`, so that `New`'s own frame is skipped too. */
  function New(msg: string, text: string, stack: seq<PC>): (e: Error)
    ensures e.message == Some(msg) && Unwrap(Some(e)).None?
  {
    NewSkip(1, msg, text, stack)
  }

  /** `WrapSkip(err, skip, msg)`: nil for a nil cause, otherwise a node that unwraps to `err`. */
  function WrapSkip(err: Option<Error>, skip: int, msg: string, text: string, stack: seq<PC>): (r: Option<Error>)
    ensures err.None? <==> r.None?
    ensures r.Some? ==> r.value.message == Some(msg) && r.value.text == text && Unwrap(r) == err
    ensures r.Some? ==> r.value.callers.Some? && |r.value.callers.value| <= MaxStackDepth
    ensures r.Some? ==> r.value.stackPC.None? && HasStack(r.value, BruhPkg)
  {
    if err.None? then None
    else Some(Node(text, msg, skip, stack, err))
  }

  /** `Wrap(err, msg)`: nil for a nil cause, otherwise `WrapSkip(err, 1, msg)`. */
  function Wrap(err: Option<Error>, msg: string, text: string, stack: seq<PC>): (r: Option<Error>)
    ensures err.None? <==> r.None?
    ensures r.Some? ==> r.value.message == Some(msg) && Unwrap(r) == err
  {
    if err.None? then None else WrapSkip(err, 1, msg, text, stack)
  }

  /** A negative skip counts as zero. */
  lemma NegativeSkipIsZero(skip: int, err: Option<Error>, msg: string, text: string, stack: seq<PC>)
    requires skip < 0
    ensures NewSkip(skip, msg, text, stack) == NewSkip(0, msg, text, stack)
    ensures WrapSkip(err, skip, msg, text, stack) == WrapSkip(err, 0, msg, text, stack)
  {
  }

  /**
   * `New` called from some frame records the same program counters as
   * `NewSkip(0)` called from that frame: the extra skip only passes over
   * `New`'s own frame. `inner` is `runtime.Callers` and `NewSkip`.
   */
  lemma NewSkipsItsOwnFrame(msg: string, text: string, inner: seq<PC>, newFrame: PC, user: seq<PC>)
    requires |inner| == 2
    ensures New(msg, text, inner + [newFrame] + user) == NewSkip(0, msg, text, inner + user)
  {
    assert (inner + [newFrame] + user)[3..] == user;
    assert (inner + user)[2..] == user;
  }

  /** The cause's root is the wrapper's root: wrapping never changes `Cause`. */
  lemma WrapKeepsCause(err: Error, skip: int, msg: string, text: string, stack: seq<PC>)
    ensures Root(WrapSkip(Some(err), skip, msg, text, stack).value) == Root(err)
  {
  }
}
