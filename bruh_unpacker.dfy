// pkg/bruh/unpacker.go: the `Unpacker` that turns an error chain into an
// ordered list of elements, joins the chain's messages, and rebuilds one
// combined stack trace from the program counters of the chain's nodes.
module Unpacker {
  import opened Text
  import opened Chain
  import opened BruhStack
  import opened StringBuilder
  import opened BruhError
  import SourceLines
  import Traceable

  /** One unpacked node: the error, its own message, its stack and the part of it not already shown. */
  datatype Element = Element(err: Error, msg: string, stack: seq<Frame>, partialStack: seq<Frame>)

  /** Whether a node has a `Callers()` method (the `callerser` interface). */
  predicate IsCallerser(e: Error)
  {
    e.callers.Some?
  }

  // ---- specification of Unpack -------------------------------------------

  /**
   * A wrapper's own message: when its text ends with the next error's text,
   * that text is cut off and then one trailing ": ".
   */
  function StripInner(message: string, next: Option<Error>): (r: string)
    ensures next.None? || !HasSuffix(message, next.value.text) ==> r == message
    ensures next.Some? && HasSuffix(message, next.value.text) ==>
      var cut := message[..|message| - |next.value.text|];
      && cut + next.value.text == message
      && (HasSuffix(cut, ": ") ==> r + ": " == cut)
      && (!HasSuffix(cut, ": ") ==> r == cut)
  {
    if next.Some? && HasSuffix(message, next.value.text)
    then TrimSuffix(message[..|message| - |next.value.text|], ": ")
    else message
  }

  /** The first node from `err` on that is nil or has `Callers()`: where a foreign layer's run ends. */
  function SkipForeign(err: Option<Error>): (r: Option<Error>)
    ensures Depth(r) <= Depth(err)
    ensures r.None? || IsCallerser(r.value)
    decreases Depth(err)
  {
    match err
    case None => None
    case Some(e) => if IsCallerser(e) then err else SkipForeign(Unwrap(err))
  }

  /** The frames a callerser node contributes: its program counters resolved into at most 32 slots. */
  function StackOf(e: Error, resolve: PC -> Symbol): (r: seq<Frame>)
    requires IsCallerser(e)
    ensures |r| <= MaxStackDepth
  {
    First(Frames(e.callers.value, resolve), MaxStackDepth)
  }

  function OwnMessage(e: Error, next: Option<Error>): string
  {
    if e.message.Some? then e.message.value else StripInner(e.text, next)
  }

  /** The elements from `err` inwards, `prv` being the stack of the last callerser element before it. */
  function UnpackFrom(err: Option<Error>, prv: seq<Frame>, unpackAll: bool, resolve: PC -> Symbol): (r: seq<Element>)
    ensures |r| <= Depth(err)
    ensures err.Some? ==> |r| > 0 && r[0].err == err.value
    decreases Depth(err)
  {
    match err
    case None => []
    case Some(e) =>
      if IsCallerser(e) then
        var stack := StackOf(e, resolve);
        [Element(e, OwnMessage(e, Unwrap(err)), stack, Relative(stack, prv))]
          + UnpackFrom(Unwrap(err), stack, unpackAll, resolve)
      else
        var nxt := if unpackAll then Unwrap(err) else SkipForeign(Unwrap(err));
        [Element(e, StripInner(e.text, nxt), [], [])] + UnpackFrom(nxt, prv, unpackAll, resolve)
  }

  function Unpacked(err: Option<Error>, unpackAll: bool, resolve: PC -> Symbol): seq<Element>
  {
    UnpackFrom(err, [], unpackAll, resolve)
  }

  /** The stack of the last callerser element before index `i`, or the stack in front of the list. */
  function PrevStack(r: seq<Element>, i: nat, prv: seq<Frame>): seq<Frame>
    requires i <= |r|
  {
    if i == 0 then prv
    else if IsCallerser(r[i - 1].err) then r[i - 1].stack
    else PrevStack(r, i - 1, prv)
  }

  lemma {:induction false} PrevStackTail(r: seq<Element>, i: nat, prv: seq<Frame>)
    requires 1 <= i <= |r|
    ensures PrevStack(r, i, prv) == PrevStack(r[1..], i - 1, if IsCallerser(r[0].err) then r[0].stack else prv)
  {
    if i > 1 && !IsCallerser(r[i - 1].err) {
      PrevStackTail(r, i - 1, prv);
    }
  }

  /**
   * Every callerser element's partial stack is its stack relative to the
   * previous callerser element's stack (the empty stack for the first one);
   * foreign elements carry no stack at all.
   */
  lemma {:induction false} PartialStacksAreRelative(err: Option<Error>, prv: seq<Frame>, unpackAll: bool, resolve: PC -> Symbol)
    ensures var r := UnpackFrom(err, prv, unpackAll, resolve);
      forall i :: 0 <= i < |r| ==>
        (IsCallerser(r[i].err) ==> r[i].partialStack == Relative(r[i].stack, PrevStack(r, i, prv)))
        && (!IsCallerser(r[i].err) ==> r[i].stack == [] && r[i].partialStack == [])
    decreases Depth(err)
  {
    if err.Some? {
      var e := err.value;
      var r := UnpackFrom(err, prv, unpackAll, resolve);
      var prv' := if IsCallerser(e) then StackOf(e, resolve) else prv;
      var nxt := if IsCallerser(e) || unpackAll then Unwrap(err) else SkipForeign(Unwrap(err));
      assert r[1..] == UnpackFrom(nxt, prv', unpackAll, resolve);
      PartialStacksAreRelative(nxt, prv', unpackAll, resolve);
      forall i | 1 <= i < |r|
        ensures PrevStack(r, i, prv) == PrevStack(r[1..], i - 1, prv')
      {
        PrevStackTail(r, i, prv);
      }
    }
  }

  /** With `unpackAll`, every node of the chain gets its own element, in chain order. */
  lemma {:induction false} UnpackAllKeepsEveryNode(err: Option<Error>, prv: seq<Frame>, resolve: PC -> Symbol)
    ensures var r := UnpackFrom(err, prv, true, resolve);
      |r| == Depth(err) && forall i :: 0 <= i < |r| ==> r[i].err == Nodes(err)[i]
    decreases Depth(err)
  {
    if err.Some? {
      var prv' := if IsCallerser(err.value) then StackOf(err.value, resolve) else prv;
      UnpackAllKeepsEveryNode(Unwrap(err), prv', resolve);
    }
  }

  /** No two foreign elements are neighbours. */
  predicate ForeignPooled(r: seq<Element>)
  {
    forall i :: 0 <= i < |r| - 1 && !IsCallerser(r[i].err) ==> IsCallerser(r[i + 1].err)
  }

  /** Without `unpackAll`, a foreign element is the last one or is followed by a callerser element. */
  lemma {:induction false} ForeignRunsArePooled(err: Option<Error>, prv: seq<Frame>, resolve: PC -> Symbol)
    ensures ForeignPooled(UnpackFrom(err, prv, false, resolve))
    decreases Depth(err)
  {
    if err.Some? {
      var e := err.value;
      var r := UnpackFrom(err, prv, false, resolve);
      var prv' := if IsCallerser(e) then StackOf(e, resolve) else prv;
      var nxt := if IsCallerser(e) then Unwrap(err) else SkipForeign(Unwrap(err));
      var r' := UnpackFrom(nxt, prv', false, resolve);
      assert r == [r[0]] + r';
      ForeignRunsArePooled(nxt, prv', resolve);
      PooledCons(r[0], r');
    }
  }

  /** A foreign element in front of a pooled list keeps it pooled when what follows it is a callerser element. */
  lemma PooledCons(head: Element, tail: seq<Element>)
    requires ForeignPooled(tail)
    requires !IsCallerser(head.err) && |tail| > 0 ==> IsCallerser(tail[0].err)
    ensures ForeignPooled([head] + tail)
  {
    var r := [head] + tail;
    forall i | 0 <= i < |r| - 1 && !IsCallerser(r[i].err)
      ensures IsCallerser(r[i + 1].err)
    {
      if i > 0 {
        assert r[i] == tail[i - 1] && r[i + 1] == tail[i];
      }
    }
  }

  /** Where the walk goes after a node: one step inwards, and past a run of foreign nodes unless `unpackAll`. */
  function After(e: Error, unpackAll: bool): Option<Error>
  {
    if IsCallerser(e) || unpackAll then Unwrap(Some(e)) else SkipForeign(Unwrap(Some(e)))
  }

  /** The state the walk carries past a node: the node's stack when it is a callerser, else the one before. */
  function Carried(e: Error, prv: seq<Frame>, resolve: PC -> Symbol): seq<Frame>
  {
    if IsCallerser(e) then StackOf(e, resolve) else prv
  }

  /** One step of the walk: what follows a node's element is the walk from `After` that node. */
  lemma UnpackStep(e: Error, prv: seq<Frame>, unpackAll: bool, resolve: PC -> Symbol)
    ensures var r := UnpackFrom(Some(e), prv, unpackAll, resolve);
      r[1..] == UnpackFrom(After(e, unpackAll), Carried(e, prv, resolve), unpackAll, resolve)
  {
  }

  /**
   * The walk is complete: the first element is the error itself, every
   * element is followed by the node the walk moves on to, and the list ends
   * exactly where the walk reaches nil.
   */
  lemma {:induction false} ElementsFollowWalk(err: Option<Error>, prv: seq<Frame>, unpackAll: bool, resolve: PC -> Symbol)
    ensures var r := UnpackFrom(err, prv, unpackAll, resolve);
      && (err.None? <==> |r| == 0)
      && (forall i :: 0 <= i < |r| - 1 ==> After(r[i].err, unpackAll) == Some(r[i + 1].err))
      && (|r| > 0 ==> After(r[|r| - 1].err, unpackAll).None?)
    decreases Depth(err)
  {
    if err.Some? {
      var e := err.value;
      var r := UnpackFrom(err, prv, unpackAll, resolve);
      var nxt := After(e, unpackAll);
      var rest := UnpackFrom(nxt, Carried(e, prv, resolve), unpackAll, resolve);
      UnpackStep(e, prv, unpackAll, resolve);
      assert r[1..] == rest;
      ElementsFollowWalk(nxt, Carried(e, prv, resolve), unpackAll, resolve);
      forall i | 0 <= i < |r| - 1
        ensures After(r[i].err, unpackAll) == Some(r[i + 1].err)
      {
        assert r[i + 1] == rest[i];
        if i > 0 {
          assert r[i] == rest[i - 1];
        }
      }
      if |rest| > 0 {
        assert r[|r| - 1] == rest[|rest| - 1];
      }
    }
  }

  /** The callerser nodes of a chain, outermost first. */
  function CallerserNodes(err: Option<Error>): (r: seq<Error>)
    ensures |r| <= Depth(err)
    ensures forall i :: 0 <= i < |r| ==> IsCallerser(r[i])
    decreases Depth(err)
  {
    match err
    case None => []
    case Some(e) => (if IsCallerser(e) then [e] else []) + CallerserNodes(Unwrap(err))
  }

  /** The nodes of the callerser elements, in order. */
  function CallerserErrs(r: seq<Element>): (s: seq<Error>)
    ensures |s| <= |r|
  {
    if |r| == 0 then [] else (if IsCallerser(r[0].err) then [r[0].err] else []) + CallerserErrs(r[1..])
  }

  /** Skipping a foreign run passes over no callerser node. */
  lemma {:induction false} SkipForeignKeepsCallersers(err: Option<Error>)
    ensures CallerserNodes(SkipForeign(err)) == CallerserNodes(err)
    decreases Depth(err)
  {
    if err.Some? && !IsCallerser(err.value) {
      SkipForeignKeepsCallersers(Unwrap(err));
    }
  }

  /** In either mode, the callerser elements are exactly the callerser nodes of the chain, in chain order. */
  lemma {:induction false} EveryCallerserUnpacked(err: Option<Error>, prv: seq<Frame>, unpackAll: bool, resolve: PC -> Symbol)
    ensures CallerserErrs(UnpackFrom(err, prv, unpackAll, resolve)) == CallerserNodes(err)
    decreases Depth(err)
  {
    if err.Some? {
      var e := err.value;
      var r := UnpackFrom(err, prv, unpackAll, resolve);
      var nxt := After(e, unpackAll);
      UnpackStep(e, prv, unpackAll, resolve);
      assert r == [r[0]] + r[1..];
      EveryCallerserUnpacked(nxt, Carried(e, prv, resolve), unpackAll, resolve);
      if !IsCallerser(e) && !unpackAll {
        SkipForeignKeepsCallersers(Unwrap(err));
      }
    }
  }

  /**
   * A `*bruh.TraceableError` has no `Callers()`: the Unpacker records it as
   * a foreign element without a stack, and its counters stay out of the
   * combined stack.
   */
  lemma TraceableLayerIsForeign(inner: Option<Error>, msg: string, stack: seq<PC>, isGlobal: seq<PC> -> bool,
                                prv: seq<Frame>, unpackAll: bool, resolve: PC -> Symbol, isGlobalFn: string -> bool)
    ensures var e := Traceable.Wrap(inner, msg, stack, isGlobal);
      && !IsCallerser(e)
      && UnpackFrom(Some(e), prv, unpackAll, resolve)[0].stack == []
      && Collected(Some(e), resolve, isGlobalFn) == Collected(inner, resolve, isGlobalFn)
  {
  }

  /** The messages of the elements, in order. */
  function Messages(upk: seq<Element>): (r: seq<string>)
    ensures |r| == |upk| && forall i :: 0 <= i < |upk| ==> r[i] == upk[i].msg
  {
    if |upk| == 0 then [] else [upk[0].msg] + Messages(upk[1..])
  }

  /** `fmt.Errorf("some external error: %w", errors.New("root cause"))`. */
  function ExternalError(): Error
  {
    Foreign("*fmt.wrapError", "some external error: root cause",
            Unwraps(Some(Foreign("*errors.errorString", "root cause", NoUnwrap))))
  }

  /** A foreign error under a `Wrap`: pooled into one element, or split into its layers with `unpackAll`. */
  lemma UnpackWrappedExternalError(text: string, stack: seq<PC>, resolve: PC -> Symbol)
    ensures var err := Wrap(Some(ExternalError()), "external wrapper", text, stack);
      && Messages(Unpacked(err, false, resolve)) == ["external wrapper", "some external error: root cause"]
      && Messages(Unpacked(err, true, resolve)) == ["external wrapper", "some external error", "root cause"]
  {
    UnpackWrappedExternalPooled(text, stack, resolve);
    UnpackWrappedExternalSplit(text, stack, resolve);
  }

  /** Without `unpackAll`: the wrapper, then the foreign layers as one element. */
  lemma UnpackWrappedExternalPooled(text: string, stack: seq<PC>, resolve: PC -> Symbol)
    ensures var err := Wrap(Some(ExternalError()), "external wrapper", text, stack);
      Messages(Unpacked(err, false, resolve)) == ["external wrapper", "some external error: root cause"]
  {
    var err := Wrap(Some(ExternalError()), "external wrapper", text, stack);
    var ext := ExternalError();
    var inner := Unwrap(Some(ext));
    var prv := StackOf(err.value, resolve);
    assert SkipForeign(inner) == None;
    var p := Unpacked(err, false, resolve);
    var p1 := UnpackFrom(Some(ext), prv, false, resolve);
    assert p == [p[0]] + p1 && p[0].msg == "external wrapper";
    assert p1 == [Element(ext, ext.text, [], [])];
  }

  /** With `unpackAll`: the wrapper, then each foreign layer on its own. */
  lemma UnpackWrappedExternalSplit(text: string, stack: seq<PC>, resolve: PC -> Symbol)
    ensures var err := Wrap(Some(ExternalError()), "external wrapper", text, stack);
      Messages(Unpacked(err, true, resolve)) == ["external wrapper", "some external error", "root cause"]
  {
    var err := Wrap(Some(ExternalError()), "external wrapper", text, stack);
    var ext := ExternalError();
    var inner := Unwrap(Some(ext));
    var prv := StackOf(err.value, resolve);
    var a := Unpacked(err, true, resolve);
    var a1 := UnpackFrom(Some(ext), prv, true, resolve);
    var a2 := UnpackFrom(inner, prv, true, resolve);
    assert "some external error: root cause"[..|"some external error: root cause"| - |"root cause"|]
        == "some external error: ";
    assert StripInner(ext.text, inner) == "some external error";
    assert a == [a[0]] + a1 && a[0].msg == "external wrapper";
    assert a1 == [Element(ext, "some external error", [], [])] + a2;
    assert a2 == [Element(inner.value, "root cause", [], [])];
  }

  /** Wrapping nil twice is nil, which unpacks to nothing. */
  lemma UnpackWrappedNil(t1: string, s1: seq<PC>, t2: string, s2: seq<PC>, unpackAll: bool, resolve: PC -> Symbol)
    ensures Unpacked(Wrap(Wrap(None, "additional context", t1, s1), "even more context", t2, s2), unpackAll, resolve) == []
  {
  }

  /** Two wraps of a `New` error give three elements carrying the three messages. */
  lemma UnpackWrapped(t0: string, s0: seq<PC>, t1: string, s1: seq<PC>, t2: string, s2: seq<PC>,
                      unpackAll: bool, resolve: PC -> Symbol)
    ensures var err := Wrap(Wrap(Some(New("root error", t0, s0)), "additional context", t1, s1), "even more context", t2, s2);
      Messages(Unpacked(err, unpackAll, resolve)) == ["even more context", "additional context", "root error"]
  {
    var e0 := Some(New("root error", t0, s0));
    var w1 := Wrap(e0, "additional context", t1, s1);
    var w2 := Wrap(w1, "even more context", t2, s2);
    var r2 := Unpacked(w2, unpackAll, resolve);
    var r1 := UnpackFrom(w1, StackOf(w2.value, resolve), unpackAll, resolve);
    var r0 := UnpackFrom(e0, StackOf(w1.value, resolve), unpackAll, resolve);
    assert r2 == [r2[0]] + r1 && r2[0].msg == "even more context";
    assert r1 == [r1[0]] + r0 && r1[0].msg == "additional context";
    assert |r0| == 1 && r0[0].msg == "root error";
  }

  // ---- specification of AppendMessageBuilder -----------------------------

  /**
   * The messages `AppendMessageBuilder` writes: `Message()` of each node, or
   * `Error()` of a node without one; empty ones are passed over, and the walk
   * ends after the first non-empty text of a node without `Message()`.
   */
  function MessagePieces(err: Option<Error>): (r: seq<string>)
    ensures |r| <= Depth(err)
    ensures forall i :: 0 <= i < |r| ==> r[i] != ""
    decreases Depth(err)
  {
    match err
    case None => []
    case Some(e) =>
      var msg := if e.message.Some? then e.message.value else e.text;
      if msg == "" then MessagePieces(Unwrap(err))
      else if e.message.Some? then [msg] + MessagePieces(Unwrap(err))
      else [msg]
  }

  /** A chain of nodes that all have `Message()` contributes each non-empty message in order. */
  lemma {:induction false} MessagePiecesOfMessagers(err: Option<Error>)
    requires forall i :: 0 <= i < Depth(err) ==> Nodes(err)[i].message.Some?
    ensures MessagePieces(err) == NonEmptyMessages(Nodes(err))
    decreases Depth(err)
  {
    if err.Some? {
      var ns := Nodes(err);
      assert ns[1..] == Nodes(Unwrap(err));
      forall i | 0 <= i < Depth(Unwrap(err))
        ensures Nodes(Unwrap(err))[i].message.Some?
      {
        assert Nodes(Unwrap(err))[i] == ns[i + 1];
      }
      MessagePiecesOfMessagers(Unwrap(err));
    }
  }

  function NonEmptyMessages(ns: seq<Error>): seq<string>
    requires forall i :: 0 <= i < |ns| ==> ns[i].message.Some?
  {
    if |ns| == 0 then []
    else if ns[0].message.value == "" then NonEmptyMessages(ns[1..])
    else [ns[0].message.value] + NonEmptyMessages(ns[1..])
  }

  // ---- specification of combinedStack ------------------------------------

  /** The capacity of the pooled program-counter buffer: `4*MAX_STACK_DEPTH`. */
  const CombinedCapacity: nat := 4 * MaxStackDepth

  /**
   * The callers `combinedStack` collects, outermost first: those of each
   * callerser node with a non-empty list, until the first node whose first
   * frame belongs to a globally defined error.
   */
  function Collected(err: Option<Error>, resolve: PC -> Symbol, isGlobal: string -> bool): (r: seq<seq<PC>>)
    ensures |r| <= Depth(err)
    ensures forall i :: 0 <= i < |r| ==> |r[i]| > 0
    decreases Depth(err)
  {
    match err
    case None => []
    case Some(e) =>
      if !IsCallerser(e) || |e.callers.value| == 0 then Collected(Unwrap(err), resolve, isGlobal)
      else if isGlobal(resolve(e.callers.value[0]).fn) then []
      else [e.callers.value] + Collected(Unwrap(err), resolve, isGlobal)
  }

  /** The buffer contents while folding, and whether the last layer had to be cut. */
  datatype Fold = Fold(combined: seq<PC>, truncated: bool)

  /** One step of the fold: the accumulated stack made relative to `current`, then `current`, cut to capacity. */
  function Step(f: Fold, current: seq<PC>): (r: Fold)
    requires |f.combined| <= CombinedCapacity
    requires f.truncated ==> |f.combined| == CombinedCapacity
    ensures |r.combined| <= CombinedCapacity
    ensures f.truncated ==> r == f
    ensures r.truncated ==> |r.combined| == CombinedCapacity
  {
    if f.truncated then f
    else
      var relative := Relative(f.combined, current);
      var capacityLeft := CombinedCapacity - |relative|;
      if capacityLeft - |current| < 0 then Fold(relative + current[..capacityLeft], true)
      else Fold(relative + current, false)
  }

  /** The fold over `layers` (outermost first), starting from the innermost one. */
  function FoldLayers(layers: seq<seq<PC>>): (r: Fold)
    requires |layers| > 0
    ensures |r.combined| <= CombinedCapacity
    ensures r.truncated ==> |r.combined| == CombinedCapacity
  {
    if |layers| == 1 then Fold(First(layers[0], CombinedCapacity), false)
    else Step(FoldLayers(layers[1..]), layers[0])
  }

  /** Once a layer is cut, the remaining outer layers change nothing. */
  lemma {:induction false} TruncationIsFinal(layers: seq<seq<PC>>, j: nat)
    requires j < |layers| && FoldLayers(layers[j..]).truncated
    ensures FoldLayers(layers) == FoldLayers(layers[j..])
    decreases j
  {
    if j > 0 {
      assert layers[j - 1..][1..] == layers[j..];
      TruncationIsFinal(layers, j - 1);
    }
  }

  /** Without a cut, the combined stack ends with the outermost layer's callers, whole. */
  lemma FoldEndsWithOutermost(layers: seq<seq<PC>>)
    requires |layers| > 0 && !FoldLayers(layers).truncated && |layers[0]| <= CombinedCapacity
    ensures var c := FoldLayers(layers).combined;
      |layers[0]| <= |c| && c[|c| - |layers[0]|..] == layers[0]
  {
    if |layers| > 1 {
      var f := FoldLayers(layers[1..]);
      var relative := Relative(f.combined, layers[0]);
      assert FoldLayers(layers).combined == relative + layers[0];
    }
  }

  /** Without a cut, and with an innermost layer that fits, the buffered fold is the unbounded `Combine`. */
  lemma {:induction false} FoldWithoutCutIsCombine(layers: seq<seq<PC>>)
    requires |layers| > 0 && |layers[|layers| - 1]| <= CombinedCapacity
    requires !FoldLayers(layers).truncated
    ensures FoldLayers(layers).combined == Combine(layers)
  {
    if |layers| > 1 {
      var inner := FoldLayers(layers[1..]);
      assert !inner.truncated;
      assert layers[1..][|layers[1..]| - 1] == layers[|layers| - 1];
      FoldWithoutCutIsCombine(layers[1..]);
    }
  }

  function CombinedPCs(err: Option<Error>, resolve: PC -> Symbol, isGlobal: string -> bool): (r: seq<PC>)
    ensures |r| <= CombinedCapacity
  {
    var layers := Collected(err, resolve, isGlobal);
    if |layers| == 0 then [] else FoldLayers(layers).combined
  }

  /** The combined stack trace of a chain: the folded program counters, resolved. */
  function CombinedFrames(err: Option<Error>, resolve: PC -> Symbol, isGlobal: string -> bool): seq<Frame>
  {
    Frames(CombinedPCs(err, resolve, isGlobal), resolve)
  }

  // ---- specification of UnpackedError.CombinedStack ----------------------

  /** The partial stacks of the elements, innermost element first. */
  function PartialsInnermostFirst(upk: seq<Element>): (r: seq<Frame>)
  {
    if |upk| == 0 then [] else PartialsInnermostFirst(upk[1..]) + upk[0].partialStack
  }

  function TotalPartialFrames(upk: seq<Element>): nat
  {
    if |upk| == 0 then 0 else |upk[0].partialStack| + TotalPartialFrames(upk[1..])
  }

  lemma {:induction false} PartialsLength(upk: seq<Element>)
    ensures |PartialsInnermostFirst(upk)| == TotalPartialFrames(upk)
  {
    if |upk| > 0 {
      PartialsLength(upk[1..]);
    }
  }

  /** When the outermost node has callers, the concatenation ends with its whole stack. */
  lemma EndsWithOutermostStack(err: Error, unpackAll: bool, resolve: PC -> Symbol)
    requires IsCallerser(err)
    ensures var upk := Unpacked(Some(err), unpackAll, resolve);
      var c := PartialsInnermostFirst(upk);
      var s := StackOf(err, resolve);
      |s| <= |c| && c[|c| - |s|..] == s
  {
    var upk := Unpacked(Some(err), unpackAll, resolve);
    RelativeExtremes(StackOf(err, resolve));
    assert upk[0].partialStack == StackOf(err, resolve);
  }

  // ---- the methods ---------------------------------------------------------

  /** The chain-length loop of `newUnpacker` and `combinedStack`. */
  method CountChain(err: Option<Error>) returns (chainLen: nat)
    ensures chainLen == Depth(err)
  {
    chainLen := 0;
    var uerr := err;
    while uerr.Some?
      invariant chainLen + Depth(uerr) == Depth(err)
      decreases Depth(uerr)
    {
      chainLen := chainLen + 1;
      uerr := Unwrap(uerr);
    }
  }

  /** `buf[at..]` overwritten by the first `count` entries of `src`, as `append` into spare capacity does. */
  method AppendInto(buf: array<PC>, at: nat, src: seq<PC>, count: nat)
    requires at + count <= buf.Length && count <= |src|
    modifies buf
    ensures buf[..at + count] == old(buf[..at]) + src[..count]
  {
    for k := 0 to count
      invariant buf[..at + k] == old(buf[..at]) + src[..k]
    {
      buf[at + k] := src[k];
      assert buf[..at + k + 1] == buf[..at + k] + [src[k]];
      assert src[..k + 1] == src[..k] + [src[k]];
    }
  }

  /** The collecting loop of `combinedStack`. */
  method CollectCallers(err: Option<Error>, resolve: PC -> Symbol, isGlobal: string -> bool)
    returns (errs: seq<seq<PC>>)
    ensures errs == Collected(err, resolve, isGlobal)
  {
    errs := [];
    var uerr := err;
    while uerr.Some?
      invariant Collected(err, resolve, isGlobal) == errs + Collected(uerr, resolve, isGlobal)
      decreases Depth(uerr)
    {
      var e := uerr.value;
      if IsCallerser(e) && |e.callers.value| > 0 {
        if isGlobal(resolve(e.callers.value[0]).fn) {
          break;
        }
        errs := errs + [e.callers.value];
      }
      uerr := Unwrap(uerr);
    }
    if uerr.None? {
      assert errs + [] == errs;
    }
  }

  /** One round of the folding loop, in place: `relativeTo` keeps a prefix of the buffer, then `current` is appended. */
  method StepInto(buf: array<PC>, n: nat, current: seq<PC>) returns (n': nat, cut: bool)
    requires buf.Length == CombinedCapacity && n <= buf.Length
    modifies buf
    ensures n' <= buf.Length
    ensures Fold(buf[..n'], cut) == Step(Fold(old(buf[..n]), false), current)
  {
    var relative := RelativeTo(buf[..n], current);
    assert buf[..|relative|] == relative;
    var capacityLeft := CombinedCapacity - |relative|;
    if capacityLeft - |current| < 0 {
      AppendInto(buf, |relative|, current, capacityLeft);
      n', cut := |relative| + capacityLeft, true;
    } else {
      AppendInto(buf, |relative|, current, |current|);
      assert current[..|current|] == current;
      n', cut := |relative| + |current|, false;
    }
  }

  /** The folding loop of `combinedStack`, from the innermost layer outwards, stopping at the first cut. */
  method FoldInto(errs: seq<seq<PC>>) returns (combined: seq<PC>)
    requires |errs| > 0
    ensures combined == FoldLayers(errs).combined
  {
    var buf := new PC[CombinedCapacity];
    var first := errs[|errs| - 1];
    var n: nat := if |first| <= CombinedCapacity then |first| else CombinedCapacity;
    AppendInto(buf, 0, first, n);
    assert [] + first[..n] == First(first, CombinedCapacity);
    assert errs[|errs| - 1..] == [first];
    var i := |errs| - 2;
    while i >= 0
      invariant -1 <= i <= |errs| - 2
      invariant n <= buf.Length == CombinedCapacity
      invariant Fold(buf[..n], false) == FoldLayers(errs[i + 1..])
      decreases i
    {
      assert errs[i..][1..] == errs[i + 1..];
      var cut;
      n, cut := StepInto(buf, n, errs[i]);
      if cut {
        TruncationIsFinal(errs, i);
        assert errs[0..] == errs;
        return buf[..n];
      }
      i := i - 1;
    }
    assert errs[0..] == errs;
    combined := buf[..n];
  }

  /** `combinedStack`: collect the callers, fold them in a 128-entry buffer, resolve the result. */
  method CombinedStackOf(err: Option<Error>, resolve: PC -> Symbol, isGlobal: string -> bool)
    returns (stack: seq<Frame>)
    ensures stack == CombinedFrames(err, resolve, isGlobal)
  {
    var chainLen := CountChain(err);
    var errs := CollectCallers(err, resolve, isGlobal);
    if |errs| == 0 {
      stack := ToStack([], resolve);
      return;
    }
    var combined := FoldInto(errs);
    stack := ToStack(combined, resolve);
  }

  /** `UnpackedError.CombinedStack`: the partial stacks appended innermost element first. */
  method CombinedStackOfElements(upk: seq<Element>) returns (combined: seq<Frame>)
    ensures combined == PartialsInnermostFirst(upk)
    ensures |combined| == TotalPartialFrames(upk)
  {
    if |upk| == 0 {
      return [];
    }
    var numFrames := CountPartialFrames(upk);
    combined := [];
    var i := |upk| - 1;
    while i >= 0
      invariant -1 <= i < |upk|
      invariant combined == PartialsInnermostFirst(upk[i + 1..])
      decreases i
    {
      assert upk[i..][1..] == upk[i + 1..];
      combined := combined + upk[i].partialStack;
      i := i - 1;
    }
    assert upk[0..] == upk;
    PartialsLength(upk);
  }

  /** The first loop of `UnpackedError.CombinedStack`, which sizes the result. */
  method CountPartialFrames(upk: seq<Element>) returns (numFrames: nat)
    ensures numFrames == TotalPartialFrames(upk)
  {
    numFrames := 0;
    for i := 0 to |upk|
      invariant numFrames + TotalPartialFrames(upk[i..]) == TotalPartialFrames(upk)
    {
      assert upk[i..][1..] == upk[i + 1..];
      numFrames := numFrames + |upk[i].partialStack|;
    }
    assert upk[|upk|..] == [];
  }

  /** The message trimming `Unpack` performs on a wrapper's `Error()` text. */
  method CutInner(message: string, next: Option<Error>) returns (m: string)
    ensures m == StripInner(message, next)
  {
    m := message;
    if next.Some? {
      var nextMessage := next.value.text;
      if HasSuffix(m, nextMessage) {
        m := m[..|m| - |nextMessage|];
        m := TrimSuffix(m, ": ");
      }
    }
  }

  /** The inner loop of `Unpack` over a run of foreign errors: unwrap until nil or a callerser. */
  method SkipToCallerser(err: Option<Error>) returns (cur: Option<Error>)
    ensures cur == SkipForeign(Unwrap(err))
  {
    cur := Unwrap(err);
    while cur.Some? && !IsCallerser(cur.value)
      invariant SkipForeign(cur) == SkipForeign(Unwrap(err))
      decreases Depth(cur)
    {
      cur := Unwrap(cur);
    }
  }

  const Blank: Element := Element(Foreign("", "", NoUnwrap), "", [], [])

  /** The body of `Unpack`'s loop: the element for `cur`, and where the walk goes on. */
  method ElementOf(cur: Option<Error>, prvStack: seq<Frame>, unpackAll: bool, resolve: PC -> Symbol)
    returns (element: Element, next: Option<Error>, nextPrv: seq<Frame>)
    requires cur.Some?
    ensures Depth(next) < Depth(cur)
    ensures UnpackFrom(cur, prvStack, unpackAll, resolve) == [element] + UnpackFrom(next, nextPrv, unpackAll, resolve)
  {
    var e := cur.value;
    nextPrv := prvStack;
    if IsCallerser(e) {
      var frames := ToStack(e.callers.value, resolve);
      var stack := First(frames, MaxStackDepth);
      var message: string;
      if e.message.Some? {
        message := e.message.value;
      } else {
        message := CutInner(e.text, Unwrap(cur));
      }
      var partial := RelativeTo(stack, prvStack);
      element := Element(e, message, stack, partial);
      nextPrv := stack;
      next := Unwrap(cur);
    } else {
      if unpackAll {
        next := Unwrap(cur);
      } else {
        next := SkipToCallerser(cur);
      }
      var message := CutInner(e.text, next);
      element := Element(e, message, [], []);
    }
  }

  /** A fresh slice from the element pool, sized as `newUnpackedError` sizes it. */
  method NewSlots(size: nat) returns (slots: array<Element>)
    ensures fresh(slots) && slots.Length == ReallocCapacity(size) && slots.Length > size
  {
    slots := new Element[ReallocCapacity(size)];
  }

  /** The loop of `Unpacker.Unpack`: one element per slot of a pooled slice sized for the chain. */
  method UnpackChain(err: Option<Error>, chainLen: nat, unpackAll: bool, resolve: PC -> Symbol)
    returns (r: seq<Element>)
    requires chainLen == Depth(err)
    ensures r == Unpacked(err, unpackAll, resolve)
  {
    var cur := err;
    var prvStack: seq<Frame> := [];
    var slots := NewSlots(chainLen);
    ghost var whole := Unpacked(err, unpackAll, resolve);
    var i := 0;
    ghost var filled: seq<Element> := [];
    while cur.Some?
      modifies slots
      invariant i == |filled| && i + Depth(cur) <= chainLen < slots.Length
      invariant slots[..i] == filled
      invariant filled + UnpackFrom(cur, prvStack, unpackAll, resolve) == whole
      decreases Depth(cur)
    {
      var element;
      ghost var before := filled;
      element, cur, prvStack := ElementOf(cur, prvStack, unpackAll, resolve);
      StepKeeps(before, element, UnpackFrom(cur, prvStack, unpackAll, resolve), before + [element], whole);
      slots[i] := element;
      filled := before + [element];
      i := i + 1;
    }
    assert filled + [] == filled;
    r := slots[..i];
  }

  /** Moving one element from the rest of the walk to the filled slots keeps the whole list. */
  lemma StepKeeps(before: seq<Element>, element: Element, rest: seq<Element>, after: seq<Element>, whole: seq<Element>)
    requires before + ([element] + rest) == whole
    requires after == before + [element]
    ensures after + rest == whole
  {
  }

  /** One more message of `AppendMessageBuilder`: the separator when something was written before, then the message. */
  method WriteJoined(sb: StringBuilder, ghost base: string, ghost written: seq<string>, msg: string, sep: bool)
    requires sb.Valid()
    requires sep <==> |written| > 0
    requires sb.buf == base + Join(written, ": ")
    modifies sb
    ensures sb.Valid()
    ensures sb.buf == base + Join(written + [msg], ": ")
  {
    ghost var joined := Join(written, ": ");
    if sep {
      var _ := sb.WriteString(": ");
      var _ := sb.WriteString(msg);
      JoinSnoc(written, msg, ": ");
      Regroup3(base, joined, ": ", msg);
    } else {
      var _ := sb.WriteString(msg);
      assert written + [msg] == [msg];
      assert joined == "";
      assert Join(written + [msg], ": ") == msg;
    }
  }

  /** Source lines for every partial-stack frame of every element, in order, as `GetSourceLines` returns them. */
  predicate SourcesFit(src: seq<seq<seq<SourceLines.SourceLine>>>, upk: seq<Element>, width: nat)
  {
    |src| == |upk| && forall i :: 0 <= i < |upk| ==> SourceLines.SlotsFit(src[i], |upk[i].partialStack|, width)
  }

  class Unpacker {
    var err: Option<Error>
    var upkErr: Option<seq<Element>>
    var cbdStk: Option<seq<Frame>>
    var chainLen: nat
    var unpackAll: bool
    /** Symbol resolution and `isGloballyDefinedError`, which the runtime supplies. */
    const resolve: PC -> Symbol
    const isGlobal: string -> bool

    /** The cached results, when present, are what unpacking and combining compute. */
    ghost predicate Valid()
      reads this
    {
      && chainLen == Depth(err)
      && (upkErr.Some? ==> upkErr.value == Unpacked(err, unpackAll, resolve))
      && (cbdStk.Some? ==> cbdStk.value == CombinedFrames(err, resolve, isGlobal))
    }

    /** `newUnpacker(err, unpackAll)`: count the chain, nothing cached yet. */
    constructor (err: Option<Error>, unpackAll: bool, resolve: PC -> Symbol, isGlobal: string -> bool)
      ensures Valid()
      ensures this.err == err && this.unpackAll == unpackAll && upkErr.None? && cbdStk.None?
      ensures this.resolve == resolve && this.isGlobal == isGlobal
    {
      var n := CountChain(err);
      this.err := err;
      this.chainLen := n;
      this.unpackAll := unpackAll;
      this.upkErr := None;
      this.cbdStk := None;
      this.resolve := resolve;
      this.isGlobal := isGlobal;
    }

    /** `ChainLen()`: the number of nodes reached by `Unwrap`. */
    function ChainLen(): (r: nat)
      requires Valid()
      reads this
      ensures r == Depth(err) && r == |Nodes(err)|
    {
      chainLen
    }

    /**
     * `Unpack()`: the cached list when there is one; otherwise walk the chain
     * filling one pooled slot per element and cache the trimmed list.
     */
    method Unpack() returns (r: seq<Element>)
      requires Valid()
      modifies this
      ensures Valid()
      ensures r == Unpacked(err, unpackAll, resolve)
      ensures |r| <= chainLen
      ensures err == old(err) && chainLen == old(chainLen) && unpackAll == old(unpackAll) && cbdStk == old(cbdStk)
      ensures upkErr == (if old(err).None? then old(upkErr) else Some(r))
    {
      if upkErr.Some? {
        return upkErr.value;
      }
      if err.None? {
        return [];
      }
      r := UnpackChain(err, chainLen, unpackAll, resolve);
      upkErr := Some(r);
    }

    /**
     * `AppendMessageBuilder`: the chain's messages joined by ": ", each
     * written only when non-empty.
     */
    method AppendMessageBuilder(sb: StringBuilder)
      requires sb.Valid()
      modifies sb
      ensures sb.Valid()
      ensures sb.buf == old(sb.buf) + Join(MessagePieces(err), ": ")
    {
      var messageWritten := false;
      ghost var written: seq<string> := [];
      ghost var base, whole := sb.buf, MessagePieces(err);
      var cur := err;
      while cur.Some?
        invariant sb.Valid()
        invariant messageWritten <==> |written| > 0
        invariant sb.buf == base + Join(written, ": ")
        invariant written + MessagePieces(cur) == whole
        decreases Depth(cur)
      {
        var e := cur.value;
        var msg := if e.message.Some? then e.message.value else e.text;
        ghost var pieces := MessagePieces(cur);
        if msg == "" {
          cur := Unwrap(cur);
          assert pieces == MessagePieces(cur);
          continue;
        }
        WriteJoined(sb, base, written, msg, messageWritten);
        messageWritten := true;
        if e.message.None? {
          assert pieces == [msg];
          written := written + [msg];
          break;
        }
        cur := Unwrap(cur);
        assert pieces == [msg] + MessagePieces(cur);
        AppendAssoc(written, [msg], MessagePieces(cur));
        written := written + [msg];
      }
      if cur.None? {
        assert written + [] == written;
      }
    }

    /** `CombinedStack()`: the cached combined stack, or compute and cache it. */
    method CombinedStack() returns (stack: seq<Frame>)
      requires Valid()
      modifies this
      ensures Valid()
      ensures stack == CombinedFrames(err, resolve, isGlobal)
      ensures err == old(err) && chainLen == old(chainLen) && unpackAll == old(unpackAll) && upkErr == old(upkErr)
      ensures cbdStk == (if old(err).None? then old(cbdStk) else Some(stack))
    {
      if cbdStk.Some? {
        return cbdStk.value;
      }
      if err.None? {
        stack := CombinedStackOf(err, resolve, isGlobal);
        return;
      }
      stack := CombinedStackOf(err, resolve, isGlobal);
      cbdStk := Some(stack);
    }
  }

  // ---- pooled slices -----------------------------------------------------

  /** The capacity a pool allocates for `size` entries: the next multiple of ten above `size`. */
  function ReallocCapacity(size: nat): (r: nat)
    ensures r > size && r % 10 == 0 && r - size <= 10
  {
    ((size / 10) + 1) * 10
  }

  /** The header (length and capacity) of a pooled slice. */
  class SliceHeader {
    var length: nat
    var capacity: nat

    ghost predicate Valid()
      reads this
    {
      length <= capacity
    }

    /** A slice fresh from a pool's `New`: empty, without capacity. */
    constructor ()
      ensures Valid() && length == 0 && capacity == 0
    {
      length := 0;
      capacity := 0;
    }

    /** `newUnpackedError(size)`: reallocate to full length when the cached slice is too small. */
    method NewUnpackedError(size: int)
      requires Valid()
      modifies this
      ensures Valid()
      ensures size > old(capacity) ==> length == capacity == ReallocCapacity(size)
      ensures size <= old(capacity) ==> length == old(length) && capacity == old(capacity)
      ensures capacity >= size
    {
      if size > capacity {
        length, capacity := ReallocCapacity(size), ReallocCapacity(size);
      }
    }

    /** `disposeUnpackedError`: back to full length before returning to the pool. */
    method DisposeUnpackedError()
      requires Valid()
      modifies this
      ensures Valid() && length == capacity && capacity == old(capacity)
    {
      length := capacity;
    }

    /** `newCallerserErrors(size)`: reallocate to an empty slice when the cached one is too small. */
    method NewCallerserErrors(size: int)
      requires Valid()
      modifies this
      ensures Valid()
      ensures size > old(capacity) ==> length == 0 && capacity == ReallocCapacity(size)
      ensures size <= old(capacity) ==> length == old(length) && capacity == old(capacity)
      ensures capacity >= size
    {
      if size > capacity {
        length, capacity := 0, ReallocCapacity(size);
      }
    }

    /** `disposeCallerserErrors`: back to length zero. */
    method DisposeCallerserErrors()
      requires Valid()
      modifies this
      ensures Valid() && length == 0 && capacity == old(capacity)
    {
      length := 0;
    }
  }
}
