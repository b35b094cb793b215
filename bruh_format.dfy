// pkg/bruh/format.go: the older formatting front end. `Unpack` walks a chain
// into elements whose stacks may be nil (a foreign node has none), and the
// `Format*` functions render such a list; `formatWithoutTrace` joins the
// messages of a chain directly, without unpacking it.
module BruhFormat {
  import opened Text
  import opened Chain
  import opened BruhStack
  import Unpacker

  /**
   * `UnpackedElement` of this file. `stack` and `partialStack` are `None`
   * for the nil `Stack` a foreign node gets; `*bruh.Err`'s `Stack()` always
   * returns a non-nil slice, so a base node's element carries `Some`.
   */
  datatype Element = Element(err: Error, msg: string, stack: Option<seq<Frame>>, partialStack: Option<seq<Frame>>)

  /** The interface `Unpack` type-switches on: both `Message()` and a `Stack()` returning this package's `Stack`. */
  predicate IsBase(e: Error)
  {
    e.message.Some? && HasStack(e, BruhPkg)
  }

  // ---- Unpack -------------------------------------------------------------

  /**
   * The elements of the chain from `err` on, `prv` being the stack of the
   * last base element before it. `stackOf` is what a base node's `Stack()`
   * returns.
   */
  function UnpackFrom(err: Option<Error>, prv: seq<Frame>, unwrapExternal: bool, stackOf: Error -> seq<Frame>): (r: seq<Element>)
    ensures |r| <= Depth(err)
    ensures err.None? <==> |r| == 0
    ensures err.Some? ==> r[0].err == err.value
    decreases Depth(err)
  {
    match err
    case None => []
    case Some(e) =>
      if IsBase(e) then
        var st := stackOf(e);
        [Element(e, e.message.value, Some(st), Some(Relative(st, prv)))]
          + UnpackFrom(Unwrap(err), st, unwrapExternal, stackOf)
      else
        [Element(e, e.text, None, None)]
          + (if unwrapExternal then UnpackFrom(Unwrap(err), prv, unwrapExternal, stackOf) else [])
  }

  function Unpacked(err: Option<Error>, unwrapExternal: bool, stackOf: Error -> seq<Frame>): seq<Element>
  {
    UnpackFrom(err, [], unwrapExternal, stackOf)
  }

  /** `Unpack`: one element per visited node, appended while walking the chain. */
  method Unpack(err: Option<Error>, unwrapExternal: bool, stackOf: Error -> seq<Frame>) returns (upkErr: seq<Element>)
    ensures upkErr == Unpacked(err, unwrapExternal, stackOf)
  {
    upkErr := [];
    var prvStack: seq<Frame> := [];
    var cur := err;
    while cur.Some?
      invariant upkErr + UnpackFrom(cur, prvStack, unwrapExternal, stackOf) == Unpacked(err, unwrapExternal, stackOf)
      decreases Depth(cur)
    {
      var e := cur.value;
      ghost var before := upkErr;
      if IsBase(e) {
        var stack := stackOf(e);
        var partial := RelativeTo(stack, prvStack);
        var element := Element(e, e.message.value, Some(stack), Some(partial));
        assert UnpackFrom(cur, prvStack, unwrapExternal, stackOf)
          == [element] + UnpackFrom(Unwrap(cur), stack, unwrapExternal, stackOf);
        AppendAssoc(before, [element], UnpackFrom(Unwrap(cur), stack, unwrapExternal, stackOf));
        upkErr := upkErr + [element];
        prvStack := stack;
      } else {
        var element := Element(e, e.text, None, None);
        var rest := if unwrapExternal then UnpackFrom(Unwrap(cur), prvStack, unwrapExternal, stackOf) else [];
        assert UnpackFrom(cur, prvStack, unwrapExternal, stackOf) == [element] + rest;
        AppendAssoc(before, [element], rest);
        upkErr := upkErr + [element];
        if !unwrapExternal {
          assert upkErr + [] == upkErr;
          return;
        }
      }
      cur := Unwrap(cur);
    }
  }

  /** What an element records for its node: a base node its message and a stack, any other node its `Error()` text and no stack. */
  predicate Describes(el: Element, node: Error, stackOf: Error -> seq<Frame>)
  {
    && el.err == node
    && (IsBase(node) ==> el.msg == node.message.value && el.stack == Some(stackOf(node)) && el.partialStack.Some?)
    && (!IsBase(node) ==> el.msg == node.text && el.stack.None? && el.partialStack.None?)
  }

  /**
   * Element `i` describes node `i` of the chain, and with `unwrapExternal`
   * every node gets an element.
   */
  lemma {:induction false} ElementsFollowChain(err: Option<Error>, prv: seq<Frame>, unwrapExternal: bool, stackOf: Error -> seq<Frame>)
    ensures var r := UnpackFrom(err, prv, unwrapExternal, stackOf);
      && (forall i :: 0 <= i < |r| ==> i < Depth(err) && Describes(r[i], Nodes(err)[i], stackOf))
      && (unwrapExternal ==> |r| == Depth(err))
    decreases Depth(err)
  {
    if err.Some? {
      var r := UnpackFrom(err, prv, unwrapExternal, stackOf);
      var e := err.value;
      var prv' := if IsBase(e) then stackOf(e) else prv;
      ElementsFollowChain(Unwrap(err), prv', unwrapExternal, stackOf);
      var rest := UnpackFrom(Unwrap(err), prv', unwrapExternal, stackOf);
      var tail := if IsBase(e) || unwrapExternal then rest else [];
      var nodes, inner := Nodes(err), Nodes(Unwrap(err));
      assert nodes == [e] + inner;
      assert r == [r[0]] + tail;
      assert Describes(r[0], e, stackOf);
      forall i | 0 <= i < |r|
        ensures i < Depth(err) && Describes(r[i], nodes[i], stackOf)
      {
        if i > 0 {
          assert r[i] == tail[i - 1] && nodes[i] == inner[i - 1];
        }
      }
    }
  }

  /** A foreign element, one without a stack, can only come last. */
  predicate ForeignOnlyLast(r: seq<Element>)
  {
    forall i :: 0 <= i < |r| && r[i].stack.None? ==> i == |r| - 1
  }

  /** Without `unwrapExternal` a foreign element can only be the last one. */
  lemma {:induction false} ForeignEndsTheWalk(err: Option<Error>, prv: seq<Frame>, stackOf: Error -> seq<Frame>)
    ensures ForeignOnlyLast(UnpackFrom(err, prv, false, stackOf))
    ensures var n, nodes := |UnpackFrom(err, prv, false, stackOf)|, Nodes(err);
      && (forall i :: 0 <= i < n - 1 ==> IsBase(nodes[i]))
      && (n < |nodes| ==> 0 < n && !IsBase(nodes[n - 1]))
    decreases Depth(err)
  {
    if err.Some? {
      var r := UnpackFrom(err, prv, false, stackOf);
      var e := err.value;
      var nodes, inner := Nodes(err), Nodes(Unwrap(err));
      assert nodes == [e] + inner;
      if IsBase(e) {
        var rest := UnpackFrom(Unwrap(err), stackOf(e), false, stackOf);
        ForeignEndsTheWalk(Unwrap(err), stackOf(e), stackOf);
        assert ForeignOnlyLast(rest);
        assert r == [r[0]] + rest;
        forall i | 0 < i < |r| && r[i].stack.None?
          ensures i == |r| - 1
        {
          assert r[i] == rest[i - 1];
        }
        forall i | 0 < i < |r| - 1
          ensures IsBase(nodes[i])
        {
          assert nodes[i] == inner[i - 1];
        }
        if |r| < |nodes| {
          assert nodes[|r| - 1] == inner[|rest| - 1];
        }
      }
    }
  }

  /**
   * The partial stack of the first base element is its whole stack, and
   * that of a later one is its stack relative to the stack of the base
   * element just before it.
   */
  lemma PartialStacksAreRelative(err: Option<Error>, unwrapExternal: bool, stackOf: Error -> seq<Frame>)
    ensures PartialsRelative(Unpacked(err, unwrapExternal, stackOf), [])
  {
    PartialsFrom(err, [], unwrapExternal, stackOf);
  }

  /** The stack of the last element before `i` that has one, `prv` if none does. */
  function PrevStack(r: seq<Element>, i: nat, prv: seq<Frame>): seq<Frame>
    requires i <= |r|
    decreases i
  {
    if i == 0 then prv
    else if r[i - 1].stack.Some? then r[i - 1].stack.value
    else PrevStack(r, i - 1, prv)
  }

  /** Every element with a stack carries it relative to the previous stack (`prv` before the first). */
  predicate PartialsRelative(r: seq<Element>, prv: seq<Frame>)
  {
    forall i :: 0 <= i < |r| && r[i].stack.Some? ==>
      r[i].partialStack == Some(Relative(r[i].stack.value, PrevStack(r, i, prv)))
  }

  lemma {:induction false} PrevStackShift(r: seq<Element>, i: nat, prv: seq<Frame>)
    requires 0 < i <= |r|
    ensures PrevStack(r, i, prv) == PrevStack(r[1..], i - 1, if r[0].stack.Some? then r[0].stack.value else prv)
    decreases i
  {
    if i > 1 {
      assert r[i - 1] == r[1..][i - 2];
      if r[i - 1].stack.None? {
        PrevStackShift(r, i - 1, prv);
      }
    }
  }

  lemma {:induction false} PartialsFrom(err: Option<Error>, prv: seq<Frame>, unwrapExternal: bool, stackOf: Error -> seq<Frame>)
    ensures PartialsRelative(UnpackFrom(err, prv, unwrapExternal, stackOf), prv)
    decreases Depth(err)
  {
    if err.Some? {
      var r := UnpackFrom(err, prv, unwrapExternal, stackOf);
      var e := err.value;
      var prv' := if IsBase(e) then stackOf(e) else prv;
      if IsBase(e) || unwrapExternal {
        var rest := UnpackFrom(Unwrap(err), prv', unwrapExternal, stackOf);
        PartialsFrom(Unwrap(err), prv', unwrapExternal, stackOf);
        assert PartialsRelative(rest, prv');
        assert r[1..] == rest;
        forall i | 0 < i < |r| && r[i].stack.Some?
          ensures r[i].partialStack == Some(Relative(r[i].stack.value, PrevStack(r, i, prv)))
        {
          assert r[i] == rest[i - 1];
          PrevStackShift(r, i, prv);
        }
      }
    }
  }

  /** `Unpack(fmt.Errorf("external wrapped: %w", New(...)), false)` keeps only the outer message. */
  lemma UnpackStopsAtForeign(text: string, inner: Error, stackOf: Error -> seq<Frame>)
    ensures var outer := Foreign("*fmt.wrapError", text, Unwraps(Some(inner)));
      Unpacked(Some(outer), false, stackOf) == [Element(outer, text, None, None)]
  {
  }

  /** With `unwrapExternal` the walk continues to the wrapped base error. */
  lemma UnpackPastForeign(text: string, msg: string, stackOf: Error -> seq<Frame>)
    ensures var inner := Error("*bruh.Err", msg, Some(msg), None, None, true, false, BruhPkg, None, Unwraps(None));
      var outer := Foreign("*fmt.wrapError", text, Unwraps(Some(inner)));
      var st := stackOf(inner);
      Unpacked(Some(outer), true, stackOf)
        == [Element(outer, text, None, None), Element(inner, msg, Some(st), Some(st))]
  {
    var inner := Error("*bruh.Err", msg, Some(msg), None, None, true, false, BruhPkg, None, Unwraps(None));
    var outer := Foreign("*fmt.wrapError", text, Unwraps(Some(inner)));
    var st := stackOf(inner);
    RelativeExtremes(st);
    assert UnpackFrom(Some(inner), [], true, stackOf) == [Element(inner, msg, Some(st), Some(st))];
    assert Unpacked(Some(outer), true, stackOf)
      == [Element(outer, text, None, None)] + UnpackFrom(Some(inner), [], true, stackOf);
  }

  // ---- formatWithoutTrace -------------------------------------------------

  /** A message as it is appended after the first one: prefixed ": ", or nothing when empty. */
  function Sep(m: string): (r: string)
    ensures m == "" ==> r == ""
    ensures m != "" ==> HasPrefix(r, ": ") && r[2..] == m
  {
    if m == "" then "" else ": " + m
  }

  /**
   * What the loop of `formatWithoutTrace` appends for the chain from `err`
   * on: each non-empty message, and the non-empty text of the first node
   * without `Message()`, where the walk ends.
   */
  function Tail(err: Option<Error>): (r: string)
    ensures err.None? ==> r == ""
    decreases Depth(err)
  {
    match err
    case None => ""
    case Some(e) =>
      if e.message.Some? then Sep(e.message.value) + Tail(Unwrap(err))
      else Sep(e.text)
  }

  /** `formatWithoutTrace`: the root's `Error()` when it has no `Message()`, else its message and the tail. */
  function ChainText(err: Error): (r: string)
    ensures err.message.None? ==> r == err.text
    ensures err.message.Some? ==> HasPrefix(r, err.message.value)
  {
    if err.message.None? then err.text
    else err.message.value + Tail(Unwrap(Some(err)))
  }

  method FormatWithoutTraceOf(err: Error) returns (s: string)
    ensures s == ChainText(err)
  {
    if err.message.None? {
      s := err.text;
      return;
    }
    s := err.message.value;
    var cur := Unwrap(Some(err));
    while cur.Some?
      invariant s + Tail(cur) == ChainText(err)
      decreases Depth(cur)
    {
      var e := cur.value;
      ghost var t := Tail(Unwrap(cur));
      if e.message.Some? {
        var msg := e.message.value;
        if msg != "" {
          AppendAssoc(s, ": ", msg);
          AppendAssoc(s, ": " + msg, t);
          s := s + ": " + msg;
        } else {
          assert Tail(cur) == "" + t == t;
        }
      } else {
        var msg := e.text;
        if msg != "" {
          AppendAssoc(s, ": ", msg);
          s := s + ": " + msg;
        } else {
          assert s + "" == s;
        }
        break;
      }
      cur := Unwrap(cur);
    }
    assert s + "" == s;
  }

  /** No node without `Message()` has an empty `Error()` text. */
  predicate NoEmptyForeign(err: Option<Error>)
    decreases Depth(err)
  {
    match err
    case None => true
    case Some(e) => (e.message.Some? || e.text != "") && NoEmptyForeign(Unwrap(err))
  }

  lemma {:induction false} TailIsJoin(m: string, err: Option<Error>)
    requires m != "" && NoEmptyForeign(err)
    ensures m + Tail(err) == Join([m] + Unpacker.MessagePieces(err), ": ")
    decreases Depth(err)
  {
    match err
    case None =>
      assert [m] + [] == [m];
    case Some(e) =>
      var rest := Unpacker.MessagePieces(Unwrap(err));
      if e.message.Some? {
        var msg := e.message.value;
        var t := Tail(Unwrap(err));
        if msg == "" {
          TailIsJoin(m, Unwrap(err));
          assert Tail(err) == "" + t == t;
        } else {
          TailIsJoin(msg, Unwrap(err));
          assert Unpacker.MessagePieces(err) == [msg] + rest;
          assert ([m] + ([msg] + rest))[1..] == [msg] + rest;
          assert Join([m] + ([msg] + rest), ": ") == (m + ": ") + (msg + t);
          assert Tail(err) == (": " + msg) + t;
          AppendAssoc(": ", msg, t);
          AppendAssoc(m, ": ", msg + t);
        }
      } else {
        assert Unpacker.MessagePieces(err) == [e.text];
        assert ([m] + [e.text])[1..] == [e.text];
      }
  }

  /**
   * The two message joiners of the package agree whenever the root's own
   * text is non-empty and no foreign node has an empty `Error()`:
   * `formatWithoutTrace` gives what `AppendMessageBuilder` writes.
   */
  lemma ChainTextIsMessagePieces(err: Error)
    requires (if err.message.Some? then err.message.value else err.text) != ""
    requires NoEmptyForeign(Some(err))
    ensures ChainText(err) == Join(Unpacker.MessagePieces(Some(err)), ": ")
  {
    if err.message.Some? {
      TailIsJoin(err.message.value, Unwrap(Some(err)));
    }
  }

  /**
   * Where they differ: a root with an empty message is still written, so
   * the separator of the next message leads the text.
   */
  lemma EmptyRootMessageLeadsWithSeparator()
    ensures var inner := Error("*bruh.Err", "inner", Some("inner"), None, None, true, false, BruhPkg, None, Unwraps(None));
      var outer := Error("*bruh.Err", "inner", Some(""), None, None, true, false, BruhPkg, None, Unwraps(Some(inner)));
      ChainText(outer) == ": inner" && Join(Unpacker.MessagePieces(Some(outer)), ": ") == "inner"
  {
  }

  /** `Wrap(errors.New(""), "additional context")` renders as the context alone. */
  lemma EmptyWrappedForeign(context: string)
    ensures var inner := Foreign("*errors.errorString", "", NoUnwrap);
      var outer := Error("*bruh.Err", context, Some(context), None, None, true, false, BruhPkg, None, Unwraps(Some(inner)));
      ChainText(outer) == context
  {
  }

  // ---- FormatWithoutTrace -------------------------------------------------

  /** The messages of the elements, in order. */
  function Msgs(upk: seq<Element>): (r: seq<string>)
    ensures |r| == |upk|
    ensures forall i :: 0 <= i < |upk| ==> r[i] == upk[i].msg
  {
    if |upk| == 0 then [] else [upk[0].msg] + Msgs(upk[1..])
  }

  /** `FormatWithoutTrace`: every message, empty ones included, joined with ": ". */
  method FormatWithoutTrace(upkErr: seq<Element>) returns (s: string)
    requires |upkErr| > 0
    ensures s == Join(Msgs(upkErr), ": ")
  {
    var msgs := Msgs(upkErr);
    s := upkErr[0].msg;
    assert msgs[..1] == [msgs[0]];
    var i := 1;
    while i < |upkErr|
      invariant 1 <= i <= |upkErr|
      invariant s == Join(msgs[..i], ": ")
    {
      assert msgs[..i + 1] == msgs[..i] + [msgs[i]];
      JoinSnoc(msgs[..i], msgs[i], ": ");
      s := s + ": " + upkErr[i].msg;
      i := i + 1;
    }
    assert msgs[..i] == msgs;
  }

  // ---- FormatWithTrace ----------------------------------------------------

  /** One frame as a trace line: "    <file>:<line> in <name>". */
  function Location(f: Frame): string
  {
    "    " + f.file + ":" + Decimal(f.line) + " in " + f.name
  }

  function Locations(st: seq<Frame>): (r: seq<string>)
    ensures |r| == |st|
  {
    seq(|st|, j requires 0 <= j < |st| => Location(st[j]))
  }

  /** The frames of a stack, one per line, with no newline after the last. */
  function FrameBlock(st: seq<Frame>): string
  {
    Join(Locations(st), "\n")
  }

  /** The frame loop shared by the trace formatters. */
  method AppendFrames(s: string, st: seq<Frame>) returns (out: string)
    ensures out == s + FrameBlock(st)
  {
    var lines := Locations(st);
    out := s;
    for j := 0 to |st|
      invariant out == s + Terminated(lines, "\n", j)
    {
      ghost var written := Terminated(lines, "\n", j);
      ghost var sep := if j + 1 < |st| then "\n" else "";
      TerminatedStep(lines, "\n", j + 1);
      AppendAssoc(s, written, lines[j] + sep);
      assert lines[j] == Location(st[j]);
      ghost var before := out;
      out := out + Location(st[j]);
      if j < |st| - 1 {
        out := out + "\n";
      } else {
        assert Location(st[j]) + sep == Location(st[j]);
      }
      AppendAssoc(before, Location(st[j]), sep);
    }
    TerminatedIsJoin(lines, "\n");
  }

  /** An empty message prints as `""`. */
  function Quoted(msg: string): (r: string)
    ensures r != ""
    ensures msg == "" ==> r == "\"\""
    ensures msg != "" ==> r == msg
  {
    if msg == "" then "\"\"" else msg
  }

  /** The block of an element that has a stack: its message, a newline, its frames. */
  function Block(e: Element): string
    requires e.stack.Some?
  {
    Quoted(e.msg) + "\n" + FrameBlock(e.stack.value)
  }

  /**
   * What `FormatWithTrace` writes for one element; `last` says whether it
   * ends the list. An element without a stack contributes its message
   * alone, and whatever follows comes right after it.
   */
  function Piece(e: Element, last: bool): string
  {
    if e.stack.None? then Quoted(e.msg) else Block(e) + (if last then "" else "\n")
  }

  /** The piece of each element, in order. */
  function Pieces(upk: seq<Element>): (r: seq<string>)
    ensures |r| == |upk|
    ensures forall i :: 0 <= i < |upk| ==> r[i] == Piece(upk[i], i + 1 == |upk|)
  {
    seq(|upk|, i requires 0 <= i < |upk| => Piece(upk[i], i + 1 == |upk|))
  }

  function TraceText(upk: seq<Element>): string
  {
    Concat(Pieces(upk))
  }

  /** `FormatWithTrace`; the capacity guess it grows the builder by does not change the text. */
  method FormatWithTrace(upkErr: seq<Element>) returns (s: string)
    ensures s == TraceText(upkErr)
  {
    ghost var pieces := Pieces(upkErr);
    s := "";
    for i := 0 to |upkErr|
      invariant s == Concat(pieces[..i])
    {
      ConcatSnoc(pieces, i);
      var upkElm := upkErr[i];
      ghost var before := s;
      var q := Quoted(upkElm.msg);
      s := s + q;
      if upkElm.stack.None? {
        continue;
      }
      s := s + "\n";
      s := AppendFrames(s, upkElm.stack.value);
      AppendAssoc(before, q, "\n");
      AppendAssoc(before, q + "\n", FrameBlock(upkElm.stack.value));
      assert s == before + Block(upkElm);
      if i < |upkErr| - 1 {
        AppendAssoc(before, Block(upkElm), "\n");
        s := s + "\n";
      } else {
        assert Block(upkElm) + "" == Block(upkElm);
      }
    }
    assert pieces[..|upkErr|] == pieces;
  }

  function Blocks(upk: seq<Element>): (r: seq<string>)
    requires forall i :: 0 <= i < |upk| ==> upk[i].stack.Some?
    ensures |r| == |upk|
    ensures forall i :: 0 <= i < |upk| ==> r[i] == Block(upk[i])
  {
    seq(|upk|, i requires 0 <= i < |upk| => Block(upk[i]))
  }

  /**
   * When every element has a stack, the trace is the blocks of the
   * elements separated by a single newline, with none after the last.
   */
  lemma TraceOfStackedElements(upk: seq<Element>)
    requires forall i :: 0 <= i < |upk| ==> upk[i].stack.Some?
    ensures TraceText(upk) == Join(Blocks(upk), "\n")
  {
    var bs, ps := Blocks(upk), Pieces(upk);
    forall i | 0 <= i < |upk|
      ensures ps[i] == bs[i] + (if i + 1 < |bs| then "\n" else "")
    {
    }
    ConcatIsJoin(bs, "\n", ps);
  }

  // ---- FormatWithCombinedTrace --------------------------------------------

  /** The header: `""` for a single element with an empty message, else the joined messages; never empty. */
  function CombinedHeader(upk: seq<Element>): (r: string)
    requires |upk| > 0
    ensures r != ""
    ensures |upk| == 1 && upk[0].msg == "" ==> r == "\"\""
    ensures !(|upk| == 1 && upk[0].msg == "") ==> r == Join(Msgs(upk), ": ")
  {
    if |upk| == 1 && upk[0].msg == "" then "\"\"" else Join(Msgs(upk), ": ")
  }

  /**
   * `FormatWithCombinedTrace`: the header, then, when the first element's
   * error has `FullStack()`, a newline and that stack's frames;
   * `fullStackOf` is what `FullStack()` returns.
   */
  function CombinedTraceText(upk: seq<Element>, fullStackOf: Error -> seq<Frame>): string
    requires |upk| > 0
  {
    CombinedHeader(upk)
      + (if HasFullStack(upk[0].err, BruhPkg) then "\n" + FrameBlock(fullStackOf(upk[0].err)) else "")
  }

  method FormatWithCombinedTrace(upkErr: seq<Element>, fullStackOf: Error -> seq<Frame>) returns (s: string)
    requires |upkErr| > 0
    ensures s == CombinedTraceText(upkErr, fullStackOf)
  {
    if |upkErr| == 1 && upkErr[0].msg == "" {
      s := "\"\"";
    } else {
      s := FormatWithoutTrace(upkErr);
    }
    var upkElm := upkErr[0];
    if HasFullStack(upkElm.err, BruhPkg) {
      var fStk := fullStackOf(upkElm.err);
      s := s + "\n";
      s := AppendFrames(s, fStk);
    }
  }

  /** Without `FullStack()` the combined trace is just the header, whatever the stacks. */
  lemma CombinedTraceWithoutFullStack(upk: seq<Element>, fullStackOf: Error -> seq<Frame>)
    requires |upk| > 0 && !HasFullStack(upk[0].err, BruhPkg)
    requires !(|upk| == 1 && upk[0].msg == "")
    ensures CombinedTraceText(upk, fullStackOf) == Join(Msgs(upk), ": ")
  {
  }

  // ---- FormatPythonTraceback ----------------------------------------------

  const TracebackHeading: string := "Traceback (most recent call last):\n"
  const DirectCause: string := "\n\nThe above exception was the direct cause of the following exception:\n\n"

  /** One frame as Python prints it: `  File "<file>", line <line>, in <name>` and a newline. */
  function PyFrame(f: Frame): string
  {
    "  File \"" + f.file + "\", line " + Decimal(f.line) + ", in " + f.name + "\n"
  }

  /** The frames of a stack, last frame first. */
  function PyFrames(ps: seq<Frame>): (r: string)
    ensures |ps| == 0 ==> r == ""
  {
    if |ps| == 0 then "" else PyFrame(ps[|ps| - 1]) + PyFrames(ps[..|ps| - 1])
  }

  /** The heading and the frames, last first, when the element has a partial stack. */
  function PyHeader(e: Element): (r: string)
    ensures e.partialStack.None? ==> r == ""
    ensures e.partialStack.Some? ==> HasPrefix(r, TracebackHeading)
  {
    if e.partialStack.Some? then TracebackHeading + PyFrames(e.partialStack.value) else ""
  }

  /** ": <msg>", or nothing for an empty message. */
  function PyMessage(msg: string): (r: string)
    ensures msg == "" <==> r == ""
  {
    if msg != "" then ": " + msg else ""
  }

  /** One element without the cause separator: header, type name, message. */
  function PyBlock(e: Element): string
  {
    PyHeader(e) + e.err.goType + PyMessage(e.msg)
  }

  /** Element `i` with the separator it is followed by: none after the outermost. */
  function PyPiece(upk: seq<Element>, i: nat): string
    requires i < |upk|
  {
    PyBlock(upk[i]) + (if i > 0 then DirectCause else "")
  }

  /** The pieces in the order they are written, innermost element first. */
  function PyPieces(upk: seq<Element>): (r: seq<string>)
    ensures |r| == |upk|
  {
    seq(|upk|, k requires 0 <= k < |upk| => PyPiece(upk, |upk| - 1 - k))
  }

  function PythonText(upk: seq<Element>): string
  {
    Concat(PyPieces(upk))
  }

  /** The frame loop of `FormatPythonTraceback`, from the last frame down to the first. */
  method AppendPyFrames(s: string, ps: seq<Frame>) returns (out: string)
    ensures out == s + PyFrames(ps)
  {
    out := s;
    var j := |ps| - 1;
    assert ps[..j + 1] == ps;
    while j >= 0
      invariant -1 <= j < |ps|
      invariant out + PyFrames(ps[..j + 1]) == s + PyFrames(ps)
      decreases j
    {
      assert ps[..j + 1][..j] == ps[..j];
      assert PyFrames(ps[..j + 1]) == PyFrame(ps[j]) + PyFrames(ps[..j]);
      AppendAssoc(out, PyFrame(ps[j]), PyFrames(ps[..j]));
      out := out + PyFrame(ps[j]);
      j := j - 1;
    }
    assert out + "" == out;
  }

  method FormatPythonTraceback(upkErr: seq<Element>) returns (s: string)
    ensures s == PythonText(upkErr)
  {
    ghost var pieces := PyPieces(upkErr);
    s := "";
    var i := |upkErr| - 1;
    while i >= 0
      invariant -1 <= i < |upkErr|
      invariant s == Concat(pieces[..|upkErr| - 1 - i])
      decreases i
    {
      ConcatSnoc(pieces, |upkErr| - 1 - i);
      assert pieces[|upkErr| - 1 - i] == PyPiece(upkErr, i);
      s := AppendPyPiece(s, upkErr, i);
      i := i - 1;
    }
    assert pieces[..|upkErr|] == pieces;
  }

  /** The body of the element loop: the block, then the separator unless it is the outermost element. */
  method AppendPyPiece(s: string, upkErr: seq<Element>, i: nat) returns (out: string)
    requires i < |upkErr|
    ensures out == s + PyPiece(upkErr, i)
  {
    out := AppendPyBlock(s, upkErr[i]);
    if i > 0 {
      AppendAssoc(s, PyBlock(upkErr[i]), DirectCause);
      out := out + DirectCause;
    } else {
      assert PyBlock(upkErr[i]) + "" == PyBlock(upkErr[i]);
    }
  }

  /** The body of the element loop: header and frames, type name, message. */
  method AppendPyBlock(s: string, upkElm: Element) returns (out: string)
    ensures out == s + PyBlock(upkElm)
  {
    out := s;
    ghost var header := PyHeader(upkElm);
    if upkElm.partialStack.Some? {
      out := out + TracebackHeading;
      out := AppendPyFrames(out, upkElm.partialStack.value);
      AppendAssoc(s, TracebackHeading, PyFrames(upkElm.partialStack.value));
    } else {
      assert s + "" == s;
    }
    assert out == s + header;
    out := out + upkElm.err.goType;
    if upkElm.msg != "" {
      AppendAssoc(s + header + upkElm.err.goType, ": ", upkElm.msg);
      out := out + ": " + upkElm.msg;
    } else {
      assert out + "" == out;
    }
    AppendAssoc(s, header, upkElm.err.goType);
    AppendAssoc(s, header + upkElm.err.goType, PyMessage(upkElm.msg));
  }

  /** The blocks in the order they are printed: innermost element first. */
  function InnermostFirst(upk: seq<Element>): (r: seq<string>)
    ensures |r| == |upk|
  {
    seq(|upk|, k requires 0 <= k < |upk| => PyBlock(upk[|upk| - 1 - k]))
  }

  /**
   * The traceback is the blocks from innermost to outermost with the
   * "direct cause" paragraph between neighbours and never after the last.
   */
  lemma PythonTextIsJoin(upk: seq<Element>)
    ensures PythonText(upk) == Join(InnermostFirst(upk), DirectCause)
  {
    var bs, ps := InnermostFirst(upk), PyPieces(upk);
    forall k | 0 <= k < |upk|
      ensures ps[k] == bs[k] + (if k + 1 < |bs| then DirectCause else "")
    {
      var j := |upk| - 1 - k;
      assert ps[k] == PyPiece(upk, j);
      assert bs[k] == PyBlock(upk[j]);
      assert (j > 0) == (k + 1 < |bs|);
    }
    ConcatIsJoin(bs, DirectCause, ps);
  }

  // ---- ToString / ToCustomString ------------------------------------------

  /**
   * `ToCustomString`: "" for nil, the fast path without a formatter, and
   * otherwise the formatter applied to the unpacked chain (foreign nodes
   * not unwrapped).
   */
  method ToCustomString(err: Option<Error>, f: Option<seq<Element> -> string>, stackOf: Error -> seq<Frame>)
    returns (s: string)
    ensures err.None? ==> s == ""
    ensures err.Some? && f.None? ==> s == ChainText(err.value)
    ensures err.Some? && f.Some? ==> s == f.value(Unpacked(err, false, stackOf))
  {
    if err.None? {
      return "";
    }
    if f.None? {
      s := FormatWithoutTraceOf(err.value);
      return;
    }
    var upkErr := Unpack(err, false, stackOf);
    s := f.value(upkErr);
  }

  /** `ToString`: `FormatWithTrace` when a trace is asked for, the fast path otherwise. */
  method ToString(err: Option<Error>, withTrace: bool, stackOf: Error -> seq<Frame>) returns (s: string)
    ensures err.None? ==> s == ""
    ensures err.Some? && !withTrace ==> s == ChainText(err.value)
    ensures err.Some? && withTrace ==> s == TraceText(Unpacked(err, false, stackOf))
  {
    var f: Option<seq<Element> -> string> := if withTrace then Some(upk => TraceText(upk)) else None;
    s := ToCustomString(err, f, stackOf);
  }
}
