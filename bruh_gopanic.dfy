// pkg/bruh/format_go_panic.go: a layout like the one the Go runtime prints
// for a panic, the chain's messages first and then the combined stack.
module GoPanic {
  import opened Text
  import opened Chain
  import opened StringBuilder
  import opened Unpacker

  /** Go's `int64(pc)` conversion of a `uintptr`: two's complement wrap-around above `MaxInt64`. */
  function PcAsInt64(pc: PC): (r: Int64)
    ensures r % UintptrModulus == pc
    ensures 0 <= r <==> pc <= MaxInt64
  {
    if pc <= MaxInt64 then pc else pc - UintptrModulus
  }

  /** One frame: `name()`, then a tab-indented `file:line +0x<pc>` line. */
  function PanicFrame(f: Frame): string
  {
    f.name + "()\n\t" + f.file + ":" + Decimal(f.line) + " +0x" + Hex(PcAsInt64(f.pc))
  }

  /** The frames, one newline between each two. */
  function PanicFrames(stack: seq<Frame>): string
  {
    Join(seq(|stack|, i requires 0 <= i < |stack| => PanicFrame(stack[i])), "\n")
  }

  /**
   * What `GoPanicFormatter` appends to `b`: the joined messages, and for a
   * non-empty stack a blank line (only when something was written before it)
   * followed by the frames.
   */
  function PanicText(b: string, joined: string, stack: seq<Frame>): string
  {
    joined + (if |stack| == 0 then "" else (if |b| + |joined| > 0 then "\n\n" else "") + PanicFrames(stack))
  }

  method WriteFrame(builder: StringBuilder, f: Frame)
    requires builder.Valid()
    modifies builder
    ensures builder.Valid()
    ensures builder.buf == old(builder.buf) + PanicFrame(f)
  {
    ghost var s := builder.buf;
    var _ := builder.WriteString(f.name);
    var _ := builder.WriteString("()\n\t");
    var _ := builder.WriteString(f.file);
    builder.WriteByte(':');
    builder.WriteInt(f.line);
    var _ := builder.WriteString(" +0x");
    builder.WriteIntAsHex(PcAsInt64(f.pc));
    Regroup6(s, f.name, "()\n\t", f.file, ":", Decimal(f.line), " +0x");
    AppendAssoc(s, f.name + "()\n\t" + f.file + ":" + Decimal(f.line) + " +0x", Hex(PcAsInt64(f.pc)));
  }

  function Pieces(stack: seq<Frame>): (r: seq<string>)
    ensures |r| == |stack|
  {
    seq(|stack|, i requires 0 <= i < |stack| => PanicFrame(stack[i]) + (if i + 1 < |stack| then "\n" else ""))
  }

  /** The frames as the loop writes them read as the joined frames. */
  lemma PiecesAreJoin(stack: seq<Frame>)
    ensures Concat(Pieces(stack)) == PanicFrames(stack)
  {
    ConcatIsJoin(seq(|stack|, i requires 0 <= i < |stack| => PanicFrame(stack[i])), "\n", Pieces(stack));
  }

  method WriteFrames(builder: StringBuilder, stack: seq<Frame>)
    requires builder.Valid()
    modifies builder
    ensures builder.Valid()
    ensures builder.buf == old(builder.buf) + PanicFrames(stack)
  {
    ghost var pieces := Pieces(stack);
    for i := 0 to |stack|
      invariant builder.Valid()
      invariant builder.buf == old(builder.buf) + Concat(pieces[..i])
    {
      ghost var s := builder.buf;
      WriteFrame(builder, stack[i]);
      if i < |stack| - 1 {
        builder.WriteByte('\n');
      }
      AppendAssoc(s, PanicFrame(stack[i]), if i + 1 < |stack| then "\n" else "");
      ConcatSnoc(pieces, i);
      AppendAssoc(old(builder.buf), Concat(pieces[..i]), pieces[i]);
    }
    assert pieces[..|stack|] == pieces;
    PiecesAreJoin(stack);
  }

  /** `GoPanicFormatter`: the incoming bytes unchanged for a nil error, otherwise followed by the panic layout. */
  method GoPanicFormatter(b: string, u: Unpacker) returns (out: string)
    requires u.Valid()
    modifies u
    ensures u.Valid() && u.err == old(u.err)
    ensures u.err.None? ==> out == b
    ensures u.err.Some? ==>
      out == b + PanicText(b, Join(MessagePieces(u.err), ": "), CombinedFrames(u.err, u.resolve, u.isGlobal))
  {
    if u.err.None? {
      return b;
    }
    var stack := u.CombinedStack();
    var builder := new StringBuilder(b, |b|);
    u.AppendMessageBuilder(builder);
    ghost var joined := Join(MessagePieces(u.err), ": ");
    ghost var s := builder.buf;
    if |stack| != 0 {
      var n := builder.Len();
      if n > 0 {
        var _ := builder.WriteString("\n\n");
      }
      WriteFrames(builder, stack);
      AppendAssoc(s, if |b| + |joined| > 0 then "\n\n" else "", PanicFrames(stack));
    }
    AppendAssoc(b, joined, if |stack| == 0 then "" else (if |b| + |joined| > 0 then "\n\n" else "") + PanicFrames(stack));
    out := builder.String();
  }

  /**
   * With nothing before the message and no message, no blank line is
   * written: the output begins with the first frame.
   */
  lemma FramesFirstWithoutMessage(stack: seq<Frame>)
    requires |stack| > 0
    ensures HasPrefix(PanicText("", "", stack), PanicFrame(stack[0]))
  {
    var frames := PanicFrames(stack);
    assert PanicText("", "", stack) == frames by {
      assert "" + ("" + frames) == frames;
    }
    FramesLayout(stack);
    var first := PanicFrame(stack[0]);
    var rest := if |stack| == 1 then "" else "\n" + PanicFrames(stack[1..]);
    assert frames == first + rest;
    assert (first + rest)[..|first|] == first;
  }

  /** A message and frames: the blank line sits between them. */
  lemma MessageThenFrames(b: string, joined: string, stack: seq<Frame>)
    requires joined != "" && |stack| > 0
    ensures PanicText(b, joined, stack) == joined + "\n\n" + PanicFrames(stack)
  {
    AppendAssoc(joined, "\n\n", PanicFrames(stack));
  }

  /** The first frame leads the frame text, and each further frame follows a newline. */
  lemma {:induction false} FramesLayout(stack: seq<Frame>)
    requires |stack| > 0
    ensures PanicFrames(stack) == PanicFrame(stack[0]) + (if |stack| == 1 then "" else "\n" + PanicFrames(stack[1..]))
  {
    var parts := seq(|stack|, i requires 0 <= i < |stack| => PanicFrame(stack[i]));
    if |stack| > 1 {
      var tail := seq(|stack| - 1, i requires 0 <= i < |stack| - 1 => PanicFrame(stack[1..][i]));
      forall i | 0 <= i < |stack| - 1
        ensures parts[1..][i] == tail[i]
      {
      }
      assert parts[1..] == tail;
      assert Join(parts, "\n") == parts[0] + "\n" + Join(tail, "\n");
      AppendAssoc(PanicFrame(stack[0]), "\n", PanicFrames(stack[1..]));
    }
  }
}
